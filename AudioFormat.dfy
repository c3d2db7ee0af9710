/** The `AudioFormat` value type: sample format, channel count and sample
    rate, with the frame-size arithmetic and the format equality. */
module AudioFormats {
  import opened MaTypes

  datatype AudioFormat = AudioFormat(
    encodingFormat: EncodingFormat,
    format: SampleFormat,
    channels: uint32,
    sampleRate: uint32)

  /** `ma_get_bytes_per_sample`. */
  function BytesPerSample(f: SampleFormat): (n: nat)
    ensures n <= 4
    ensures n == 0 <==> f == FormatUnknown
  {
    match f
    case FormatUnknown => 0
    case U8 => 1
    case S16 => 2
    case S24 => 3
    case S32 => 4
    case F32 => 4
  }

  /** The three-argument constructor; the encoding keeps its default. */
  function Make(format: SampleFormat, channels: uint32, sampleRate: uint32): (r: AudioFormat)
    ensures r.format == format && r.channels == channels && r.sampleRate == sampleRate
    ensures r.encodingFormat == EncodingUnknown
  {
    AudioFormat(EncodingUnknown, format, channels, sampleRate)
  }

  /** The default constructor: (unknown, 0, 0). */
  function Default(): (r: AudioFormat)
    ensures r.format == FormatUnknown && r.channels == 0 && r.sampleRate == 0
    ensures FrameSizeInBytes(r, 1) == 0
  {
    Make(FormatUnknown, 0, 0)
  }

  /** `AudioFormat::Stereo48kF32()`. */
  function Stereo48kF32(): (r: AudioFormat)
    ensures r.format == F32 && r.channels == 2 && r.sampleRate == 48000
    ensures FrameSizeInBytes(r, 1) == 8
  {
    Make(F32, 2, 48000)
  }

  /** `frameSizeInBytes(frames)`: two uint32 multiplications, each wrapping
      modulo 2^32 as C++ unsigned arithmetic does. */
  function FrameSizeInBytes(f: AudioFormat, frames: uint32): uint32
  {
    (frames * ((f.channels * BytesPerSample(f.format)) % UINT32_LIMIT)) % UINT32_LIMIT
  }

  /** `operator==`: the encoding is not compared. */
  predicate Equal(a: AudioFormat, b: AudioFormat)
  {
    a.format == b.format && a.channels == b.channels && a.sampleRate == b.sampleRate
  }

  /** `operator!=`. */
  predicate NotEqual(a: AudioFormat, b: AudioFormat)
  {
    !Equal(a, b)
  }

  /** The exact byte size of one frame: channels x bytes per sample. */
  function FrameBytes(f: AudioFormat): nat
  {
    f.channels * BytesPerSample(f.format)
  }

  lemma MulBelow(a: nat, b: nat, bound: nat)
    requires 1 <= a && a * b < bound
    ensures b < bound
  {
    assert a * b == b + (a - 1) * b;
  }

  lemma MulMonotone(x: nat, y: nat, u: nat)
    requires x <= y
    ensures x * u <= y * u
  {
    assert y * u == x * u + (y - x) * u;
  }

  /** Without overflow the frame size is frames x channels x bytes per sample. */
  lemma FrameSizeExact(f: AudioFormat, frames: uint32)
    requires frames * FrameBytes(f) < UINT32_LIMIT
    ensures FrameSizeInBytes(f, frames) == frames * FrameBytes(f)
  {
    var unit := FrameBytes(f);
    if frames > 0 {
      MulBelow(frames, unit, UINT32_LIMIT);
      assert unit % UINT32_LIMIT == unit;
    } else {
      assert frames * (unit % UINT32_LIMIT) == 0;
    }
  }

  /** The default argument gives the size of one frame. */
  lemma OneFrameSize(f: AudioFormat)
    ensures FrameSizeInBytes(f, 1) == FrameBytes(f) % UINT32_LIMIT
  {
  }

  lemma FrameSizeOfZero(f: AudioFormat)
    ensures FrameSizeInBytes(f, 0) == 0
  {
  }

  /** Frame sizes add up, as long as the sum does not overflow. */
  lemma FrameSizeAdditive(f: AudioFormat, a: uint32, b: uint32)
    requires a + b < UINT32_LIMIT
    requires (a + b) * FrameBytes(f) < UINT32_LIMIT
    ensures FrameSizeInBytes(f, a + b) == FrameSizeInBytes(f, a) + FrameSizeInBytes(f, b)
  {
    var unit := FrameBytes(f);
    MulMonotone(a, a + b, unit);
    MulMonotone(b, a + b, unit);
    FrameSizeExact(f, a);
    FrameSizeExact(f, b);
    FrameSizeExact(f, a + b);
    assert (a + b) * unit == a * unit + b * unit;
  }

  /** `==` compares exactly format, channels and sample rate. */
  lemma EqualIffFieldsMatch(a: AudioFormat, b: AudioFormat)
    ensures Equal(a, b) <==> (a.format, a.channels, a.sampleRate) == (b.format, b.channels, b.sampleRate)
    ensures (a.encodingFormat != b.encodingFormat &&
             (a.format, a.channels, a.sampleRate) == (b.format, b.channels, b.sampleRate)) ==> Equal(a, b)
  {
  }

  /** `!=` negates `==`; `==` is reflexive and symmetric, and transitive. */
  lemma EqualityLaws(a: AudioFormat, b: AudioFormat, c: AudioFormat)
    ensures NotEqual(a, b) <==> !Equal(a, b)
    ensures Equal(a, a)
    ensures Equal(a, b) <==> Equal(b, a)
    ensures Equal(a, b) && Equal(b, c) ==> Equal(a, c)
  {
  }
}
