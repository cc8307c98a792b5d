# LiteRT example app: executor data paths in Dafny

This project models the deterministic data handling under the app's model executors and its camera manager. The coroutine fan-out to the executors and the merge of their flows into one view state are not modelled. What is modelled:

- **Pixel unpacking** (`bitmapToNormalizedFloatArray`, which appears in the style-transfer, OCR and classification executors). Every ARGB pixel becomes three NHWC entries: red, green and blue at indices 3i, 3i + 1 and 3i + 2. All three copies share one loop, modelled once as `Pixels.UnpackChannels`.
- **Pixel packing** (`floatArrayToBitmap` in the style-transfer executor). It builds `width * height` opaque pixels. Each channel is clamped into [0, 255], and a channel whose index lies past the end of the source array is 0.
- **Top-1 classification**. Two size guards come first. Then the first maximal score is picked and its label is looked up at the same index. The result is one object whose box is the original frame.
- **16-bit little-endian PCM decoding** (`pcmToFloatArray`), and the placeholder decoders `decodeSpeechOutput` and `decodeOcrOutput`. These are constant functions; the `RunAsync` contracts state their texts.
- **One `runAsync` invocation per executor.** The foreign `compiledModel.run` / `readFloat` pair is an input value of type `Types.ModelRun`: both succeed, the run throws, or the read throws. The result is a `Types.Invocation`. It holds the array written to the input tensor, the values emitted on the output flow, the messages emitted on the error flow, and the exception that escapes `runAsync`, if any.
- **NV21 assembly** in the camera manager (Y plane, then V, then U). Also the analyzer callback's rule: it emits only a converted frame, and it closes the image proxy on every path where the platform's conversion calls do not throw.

Representation choices:
- A Kotlin `Int` pixel is its 32 bits read as an unsigned number (`Pixels.Pixel`). The shift-and-mask and shift-and-or forms are written as division, remainder and sums. Kotlin's `shr` is an arithmetic shift, modelled on words as `Pixels.Shr`, because Dafny's `>>` is the logical one. `Pixels.ShiftMaskIsDivMod`, `Pixels.PackOrIsSum` and `SpeechToTextExecutor.ShiftOrIsAdd` state on 32-bit words that these forms agree.
- A Kotlin `Byte` is an integer in [-128, 127] (`Types.Byte`).
- An exception is modelled by its nullable message. The template `"${e.message}"` renders a null message as `null`.

Some of the code's behaviour departs from what one might expect of a pipeline stage, which is to report every failure on its error flow and never throw. The model keeps the code's behaviour:
- A buffer-size mismatch in the classifier sends nothing to the error flow. The invocation just ends. The classifier never uses its error flow at all.
- Not every failure is caught. The classifier's `readFloat` (ClassificationExecutor.kt:58) sits outside any `try`. The speech executor has no `try` at all. In those cases the exception escapes `runAsync` (`thrown`) and nothing is emitted.
- Labels are looked up by direct index (`labels[maxIdx]`), with no offset.

## Model

| member | source | states |
|---|---|---|
| `Pixels.Alpha` | app/src/main/java/com/example/mylitertexperiment/model/StyleTransferExecutor.kt:84 | the alpha byte of a pixel, in [0, 255] |
| `Pixels.Red` | app/src/main/java/com/example/mylitertexperiment/model/StyleTransferExecutor.kt:69 | `(pixel shr 16) and 0xFF` lies in [0, 255] |
| `Pixels.Green` | app/src/main/java/com/example/mylitertexperiment/model/StyleTransferExecutor.kt:70 | `(pixel shr 8) and 0xFF` lies in [0, 255] |
| `Pixels.Blue` | app/src/main/java/com/example/mylitertexperiment/model/StyleTransferExecutor.kt:71 | `pixel and 0xFF` lies in [0, 255] |
| `Pixels.Channel` | app/src/main/java/com/example/mylitertexperiment/model/StyleTransferExecutor.kt:69-71 | channel c (R = 0, G = 1, B = 2) of a pixel lies in [0, 255] |
| `Pixels.Clamp` | app/src/main/java/com/example/mylitertexperiment/model/StyleTransferExecutor.kt:81-83 | `coerceIn(0, 255)`: the result is in [0, 255], equals the input inside the range, is 0 below it and 255 above it |
| `Pixels.Pack` | app/src/main/java/com/example/mylitertexperiment/model/StyleTransferExecutor.kt:84 | a packed pixel has alpha 0xFF, and its red, green and blue unpack to exactly the r, g and b packed |
| `Pixels.PixelOfBytes` | app/src/main/java/com/example/mylitertexperiment/model/StyleTransferExecutor.kt:84 | a pixel equals alpha·2^24 + r·2^16 + g·2^8 + b of its own bytes, so the bytes determine the pixel |
| `Pixels.UnpackPack` | app/src/main/java/com/example/mylitertexperiment/model/StyleTransferExecutor.kt:69-71 | round trip: channel c of `Pack(r, g, b)` is the c-th of r, g, b |
| `Pixels.UnpackChannels` | app/src/main/java/com/example/mylitertexperiment/model/StyleTransferExecutor.kt:61-74 | the array has width·height·3 entries, and channel c of pixel i sits at index 3i + c (the same loop as OCRExecutor.kt:55-68 and ClassificationExecutor.kt:74-91) |
| `Pixels.InterleavedInRange` | app/src/main/java/com/example/mylitertexperiment/model/OCRExecutor.kt:61-66 | every entry of an unpacked array is a channel value in [0, 255] |
| `Pixels.InterleavingUnique` | app/src/main/java/com/example/mylitertexperiment/model/ClassificationExecutor.kt:77-89 | the 3i + c layout fixes every entry of the array: two arrays with that layout over the same pixels are equal |
| `Pixels.ShiftMaskIsDivMod` | app/src/main/java/com/example/mylitertexperiment/model/StyleTransferExecutor.kt:69-71 | on 32-bit words, masking Kotlin's arithmetic `shr` by 16 or 8 (`Pixels.Shr`, which copies in the sign bit) with 0xFF, or masking the word itself, is the unsigned division and remainder the model uses, for negative pixels too |
| `Pixels.PackOrIsSum` | app/src/main/java/com/example/mylitertexperiment/model/StyleTransferExecutor.kt:84 | on 32-bit words, `(0xFF shl 24) or (r shl 16) or (g shl 8) or b` equals 0xFF000000 + r·2^16 + g·2^8 + b for bytes r, g, b |
| `StyleTransferExecutor.SourceChannel` | app/src/main/java/com/example/mylitertexperiment/model/StyleTransferExecutor.kt:78-83 | a source channel is in [0, 255]: the clamped value when its index is within the array, 0 when the index is past `floatArray.size - 1` |
| `StyleTransferExecutor.OpaqueBlack` | app/src/main/java/com/example/mylitertexperiment/model/StyleTransferExecutor.kt:78-84 | a pixel packed from an empty source array is 0xFF000000 |
| `StyleTransferExecutor.FloatArrayToBitmap` | app/src/main/java/com/example/mylitertexperiment/model/StyleTransferExecutor.kt:76-87 | exactly width·height pixels; pixel i is opaque and unpacks to source channels 3i, 3i + 1 and 3i + 2; an empty source gives all pixels 0xFF000000 |
| `StyleTransferExecutor.RunAsync` | app/src/main/java/com/example/mylitertexperiment/model/StyleTransferExecutor.kt:32-59 | writes the unpacked input; a run failure emits exactly "Run error: msg" and no output; a read failure emits exactly "Output read error: msg" and no output; success emits exactly one 256×256 bitmap packed from the output and no error; no exception of `run` or `readFloat` escapes |
| `ClassificationExecutor.MaxIndex` | app/src/main/java/com/example/mylitertexperiment/model/ClassificationExecutor.kt:64 | -1 exactly for no scores; otherwise an index whose score is at least every score and strictly greater than every earlier score (the first maximum) |
| `ClassificationExecutor.FirstMaximumUnique` | app/src/main/java/com/example/mylitertexperiment/model/ClassificationExecutor.kt:64 | any index with the first-maximum property is the one `MaxIndex` returns |
| `ClassificationExecutor.TopOne` | app/src/main/java/com/example/mylitertexperiment/model/ClassificationExecutor.kt:64-69 | the confidence is at least every score; it equals the score at `maxIdx`, or 0 for no scores; the label is `labels[maxIdx]` with no offset when that index is a valid label index, else ""; the box is (0, 0, input width, input height) |
| `ClassificationExecutor.RunAsync` | app/src/main/java/com/example/mylitertexperiment/model/ClassificationExecutor.kt:37-72 | never emits an error; an input array whose size is not 224·224·3, a run exception, or a score array whose size is not 1001 each end with no output and nothing thrown; a read exception escapes; otherwise exactly one list with exactly the one `TopOne` object |
| `OcrExecutor.RunAsync` | app/src/main/java/com/example/mylitertexperiment/model/OCRExecutor.kt:26-53 | writes the unpacked input, 3·320·320 entries for a 320×320 bitmap; a run failure emits exactly "Run error: msg", a read failure exactly "Output read error: msg", each with no output; success emits exactly "[OCR output]" and no error; no exception of `run` or `readFloat` escapes |
| `OcrExecutor.DecodeOcrOutput` | app/src/main/java/com/example/mylitertexperiment/model/OCRExecutor.kt:70-74 | the placeholder decoder returns "[OCR output]" for every output array |
| `SpeechToTextExecutor.Unsigned` | app/src/main/java/com/example/mylitertexperiment/model/SpeechToTextExecutor.kt:50 | `toInt() and 0xFF` of a byte is in [0, 255]: the byte itself when non-negative, byte + 256 when negative |
| `SpeechToTextExecutor.Sample` | app/src/main/java/com/example/mylitertexperiment/model/SpeechToTextExecutor.kt:50-52 | a sample, signed high byte·256 + unsigned low byte, lies in [-32768, 32767] |
| `SpeechToTextExecutor.Scaled` | app/src/main/java/com/example/mylitertexperiment/model/SpeechToTextExecutor.kt:53 | `sample / 32768.0f` of a 16-bit sample lies in [-1, 1), and multiplying it back by 32768 gives the sample exactly |
| `SpeechToTextExecutor.PcmToFloatArray` | app/src/main/java/com/example/mylitertexperiment/model/SpeechToTextExecutor.kt:46-56 | `audio.size / 2` samples (a trailing odd byte is ignored); entry i is the sample of bytes 2i and 2i + 1, divided by 32768, and lies in [-1, 1) |
| `SpeechToTextExecutor.EncodeSample` | app/src/main/java/com/example/mylitertexperiment/model/SpeechToTextExecutor.kt:47-52 | round trip: encoding a signed 16-bit value as two little-endian bytes and decoding them returns the value |
| `SpeechToTextExecutor.EncodeDecode` | app/src/main/java/com/example/mylitertexperiment/model/SpeechToTextExecutor.kt:50-52 | round trip the other way: encoding the decoded sample returns the two bytes, so decoding loses nothing |
| `SpeechToTextExecutor.ShiftOrIsAdd` | app/src/main/java/com/example/mylitertexperiment/model/SpeechToTextExecutor.kt:52 | on 32-bit words, `(high shl 8) or low` equals high·256 + low when low < 256 |
| `SpeechToTextExecutor.DecodeSpeechOutput` | app/src/main/java/com/example/mylitertexperiment/model/SpeechToTextExecutor.kt:58-62 | the placeholder decoder returns "[Speech output]" for every output array |
| `SpeechToTextExecutor.RunAsync` | app/src/main/java/com/example/mylitertexperiment/model/SpeechToTextExecutor.kt:30-44 | writes the decoded samples; when run and read succeed it emits exactly "[Speech output]"; a failing run or read emits nothing and its exception escapes; the error flow is never used |
| `CameraXManager.Get` | app/src/main/java/com/example/mylitertexperiment/camera/CameraXManager.kt:85-87 | a plane's remaining bytes are copied in order to the given offset, and the rest of the buffer is unchanged |
| `CameraXManager.Nv21Buffer` | app/src/main/java/com/example/mylitertexperiment/camera/CameraXManager.kt:81-87 | the buffer has ySize + uSize + vSize bytes; [0, ySize) is the Y plane, [ySize, ySize + vSize) the V plane, the rest the U plane |
| `CameraXManager.ImageProxyToBitmap` | app/src/main/java/com/example/mylitertexperiment/camera/CameraXManager.kt:76-93 | a missing image gives no bitmap; otherwise the result is the decoder's result on the Y + V + U buffer at the proxy's width and height |
| `CameraXManager.ImageProxy.Close` | app/src/main/java/com/example/mylitertexperiment/camera/CameraXManager.kt:59 | after `close()` the proxy is closed |
| `CameraXManager.Analyze` | app/src/main/java/com/example/mylitertexperiment/camera/CameraXManager.kt:52-60 | a frame is emitted exactly when conversion gives a bitmap (and it is that bitmap); the proxy is closed on every path where the conversion does not throw |

## Left out

- Float arithmetic. This covers the `/ 255.0f` normalisation (style transfer, OCR), `(r - 127.5f) / 127.5f` (classification) and `(x * 255.0f).toInt()` before packing. A written tensor is modelled by its integer channel values, and a style-transfer output by its already-truncated integers. The PCM division by 32768 is exact, so it is modelled over reals.
- Pixels.UnpackChannels: states the integer channel behind each float entry, not the float value that is stored there.
- ClassificationExecutor.MaxIndex: scores are reals, so NaN and float comparison quirks in `maxByOrNull` are not covered.
- Foreign calls are inputs or parameters, not computations. This covers `createScaledBitmap`/`scale` (the resized bitmap is a parameter), `getPixels` (a bitmap's pixel sequence), `writeFloat` (recorded as `written`), `CompiledModel.run`/`readFloat` (`ModelRun`), `createBitmap` (a `Bitmap` value), `YuvImage.compressToJpeg` with `decodeByteArray` (the `decode` parameter), `ByteBuffer.remaining` (plane lengths), and `loadLabels` (the `labels` parameter).
- Executor construction: `CompiledModel.create`, buffer creation, and the classifier's diagnostic read of the output buffer at lines 25-32, which only logs.
- Foreign calls outside any `try` are taken never to throw. These are `writeFloat` (StyleTransferExecutor.kt:37, OCRExecutor.kt:31, ClassificationExecutor.kt:47, SpeechToTextExecutor.kt:34), `createScaledBitmap`/`scale` and `getPixels`. In the code, an exception from any of them escapes `runAsync` before anything is emitted. The model has no such outcome, so its "no exception of `run` or `readFloat` escapes" says nothing about these calls.
- CameraXManager.Analyze: the analyzer lambda has no `try`/`finally`. An exception inside `imageProxyToBitmap` (in `compressToJpeg`, `decodeByteArray` or a plane's `get`) would skip `imageProxy.close()` and escape the callback. The model takes those calls never to throw, so "closed on every path" holds only on the paths it can express.
- Logging (`Log.d`/`Log.e`) has no observable effect in the model.
- Coroutines and flows. This covers `withContext(Dispatchers.Default)`, the suspension of `emit` on a `MutableSharedFlow`, and the `launch` that emits a camera frame.
- CameraXManager.Analyze: the emission is launched asynchronously, so the model states only which frame is handed over and that the proxy is closed, not when the emission happens relative to `close()`.
- `startCamera` (camera provider, preview, analyzer binding) is platform set-up, not data handling.
- `catch (e: Exception)` does not catch JVM `Error`s. The model's failures are all exceptions.
- 32-bit overflow of `width * height * 3` and of `ySize + uSize + vSize` is not modelled. The working sizes are fixed at 224, 256 and 320, and camera planes are far below 2^31 bytes.
- The repository's fan-out, forwarding and logging collectors, the combine-latest view state, the UI, the activity wiring and the repository test all rest on concurrency and library semantics. They are not part of this model.
