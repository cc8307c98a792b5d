/**
 * The speech-to-text executor: 16-bit little-endian PCM bytes become float
 * samples in [-1, 1); the output decoder is still a placeholder, and the
 * invocation catches nothing.
 *
 * `sample / 32768.0f` is exact in float32 (the sample and the divisor are
 * both exactly representable and the divisor is a power of two), so the
 * samples are modelled as reals.
 */
module SpeechToTextExecutor {
  import opened Types

  /** `byte.toInt() and 0xFF`: the unsigned reading of a two's-complement byte. */
  function Unsigned(b: Byte): (v: int)
    ensures 0 <= v < 256
    ensures b >= 0 ==> v == b
    ensures b < 0 ==> v == b + 256
  {
    b % 256
  }

  /**
   * `(high shl 8) or low` with `high` the sign-extended high byte and `low`
   * the unsigned low byte. The low byte fills only bits 0-7, which `shl 8`
   * leaves clear, so `or` adds (`ShiftOrIsAdd`); the value is a signed 16-bit sample.
   */
  function Sample(low: Byte, high: Byte): (s: int)
    ensures -32768 <= s <= 32767
  {
    high * 256 + Unsigned(low)
  }

  /**
   * The float sample `sample / 32768.0f`: a 16-bit sample lands in [-1, 1),
   * and the division loses nothing, since multiplying back by 32768 gives
   * the sample.
   */
  function Scaled(s: int): (x: real)
    ensures -32768 <= s <= 32767 ==> -1.0 <= x < 1.0
    ensures x * 32768.0 == s as real
  {
    s as real / 32768.0
  }

  /** `samples` is the decoding of `audio`: `audio.size / 2` samples, a trailing odd byte ignored. */
  predicate DecodesPcm(audio: seq<Byte>, samples: seq<real>)
  {
    && |samples| == |audio| / 2
    && forall i :: 0 <= i < |samples| ==> samples[i] == Scaled(Sample(audio[2 * i], audio[2 * i + 1]))
  }

  /** `pcmToFloatArray`: every sample is the little-endian pair at 2i, 2i + 1, scaled into [-1, 1). */
  method PcmToFloatArray(audio: seq<Byte>) returns (floatArray: array<real>)
    ensures DecodesPcm(audio, floatArray[..])
    ensures forall i :: 0 <= i < floatArray.Length ==> -1.0 <= floatArray[i] < 1.0
  {
    floatArray := new real[|audio| / 2];
    var i := 0;
    while i < floatArray.Length
      invariant 0 <= i <= floatArray.Length
      invariant forall k :: 0 <= k < i ==> floatArray[k] == Scaled(Sample(audio[2 * k], audio[2 * k + 1]))
      invariant forall k :: 0 <= k < i ==> -1.0 <= floatArray[k] < 1.0
    {
      var low := Unsigned(audio[i * 2]);
      var high := audio[i * 2 + 1] as int;
      var sample := high * 256 + low;
      floatArray[i] := sample as real / 32768.0;
      i := i + 1;
    }
  }

  /** The two little-endian bytes of a signed 16-bit value: low byte first, then the high byte. */
  function EncodeSample(s: int): (bytes: (Byte, Byte))
    requires -32768 <= s <= 32767
    ensures Sample(bytes.0, bytes.1) == s
  {
    var lo := s % 256;
    var hi := (s - lo) / 256;
    (if lo >= 128 then lo - 256 else lo, hi)
  }

  /** Decoding then encoding gives back the two bytes: the sample decoding is a bijection. */
  lemma EncodeDecode(low: Byte, high: Byte)
    ensures EncodeSample(Sample(low, high)) == (low, high)
  {
  }

  /** In 32-bit words, shifting the high byte left by 8 clears the bits the low byte occupies, so `or` is `+`. */
  lemma ShiftOrIsAdd(high: bv32, low: bv32)
    requires low < 0x100
    ensures (high << 8) | low == (high << 8) + low
    ensures high << 8 == high * 0x100
  {
  }

  /** The placeholder decoder: the same text whatever the model produced. */
  function DecodeSpeechOutput(output: seq<real>): (s: string)
    ensures s == "[Speech output]"
  {
    "[Speech output]"
  }

  /**
   * `runAsync(audio)`: the decoded samples are written; a successful run and
   * read emit exactly the placeholder text; there is no try/catch, so a
   * failing run or read emits nothing and its exception escapes; the error
   * flow is never used.
   */
  method RunAsync(audio: seq<Byte>, run: ModelRun<seq<real>>) returns (inv: Invocation<real, string>)
    ensures inv.written.Some? && DecodesPcm(audio, inv.written.value)
    ensures inv.errors == []
    ensures run.Ran? ==> inv.outputs == ["[Speech output]"] && inv.thrown == None
    ensures run.RunFails? ==> inv.outputs == [] && inv.thrown == Some(run.runError)
    ensures run.ReadFails? ==> inv.outputs == [] && inv.thrown == Some(run.readError)
  {
    var floatArray := PcmToFloatArray(audio);
    inv := Invocation(Some(floatArray[..]), [], [], None);
    match run
    case RunFails(e) =>
      inv := inv.(thrown := Some(e));
      return;
    case ReadFails(e) =>
      inv := inv.(thrown := Some(e));
      return;
    case Ran(output) =>
      var speechText := DecodeSpeechOutput(output);
      inv := inv.(outputs := inv.outputs + [speechText]);
  }
}
