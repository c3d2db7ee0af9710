/** Types that the audio core takes from the miniaudio library: result codes,
    sample formats, device types, backends, and an Option for the source's
    nullable pointers. */
module MaTypes {

  /** A nullable pointer or an absent value. */
  datatype Option<T> = None | Some(value: T)

  /** Unsigned 32-bit integers (`ma_uint32`). */
  const UINT32_LIMIT: nat := 0x1_0000_0000
  type uint32 = x: nat | x < UINT32_LIMIT

  /** `ma_result` values the core returns or tests; every other failure a
      miniaudio call can report is `Failed`. */
  datatype MaResult =
    | Success
    | InvalidArgs
    | InvalidOperation
    | NotImplemented
    | NoMessage
    | NoDataAvailable
    | DeviceNotInitialized
    | DeviceAlreadyInitialized
    | BackendNotEnabled
    | Failed(code: int)

  /** `ma_format`. */
  datatype SampleFormat = FormatUnknown | U8 | S16 | S24 | S32 | F32

  /** `ma_encoding_format`. */
  datatype EncodingFormat = EncodingUnknown | Wav | Flac | Mp3 | Vorbis

  /** `ma_device_type`; `Code` is the enumerator's integer value. */
  datatype DeviceType = Playback | Capture | Duplex | Loopback {
    function Code(): (c: int)
      ensures 1 <= c <= 4
    {
      match this
      case Playback => 1
      case Capture => 2
      case Duplex => 3
      case Loopback => 4
    }
  }

  /** `ma_backend`; `OtherBackend` is any value outside the named enumerators. */
  datatype Backend =
    | Wasapi | DSound | WinMM | CoreAudio | Sndio | Audio4 | OSS
    | PulseAudio | Alsa | Jack | AAudio | OpenSL | WebAudio | Custom | NullBackend
    | OtherBackend(code: int)

  /** The fields of `ma_device_id` that `normalizeDeviceId` reads. Character
      arrays hold their text up to the first NUL; `wasapi` holds the text
      the wide-string conversion produced, and `customP` the text a pointer
      prints as, when it is not null. In miniaudio the custom parts `i`, `s`
      and `p` share one inner union, so they overlap in memory; the model
      treats them as three independent fields. */
  datatype DeviceIdUnion = DeviceIdUnion(
    wasapi: string,
    dsound: seq<bv8>,
    winmm: uint32,
    alsa: string,
    pulse: string,
    sndio: string,
    audio4: string,
    coreaudio: string,
    oss: string,
    webaudio: string,
    aaudio: int,
    jack: int,
    opensl: uint32,
    nullbackend: int,
    customI: int,
    customS: string,
    customP: Option<string>)

  /** `MA_DATA_FORMAT_FLAG_EXCLUSIVE_MODE`. */
  const DATA_FORMAT_FLAG_EXCLUSIVE_MODE: bv32 := 2

  /** One entry of `ma_device_info.nativeDataFormats`. */
  datatype NativeDataFormat = NativeDataFormat(format: SampleFormat, channels: uint32, sampleRate: uint32, flags: bv32)

  /** The fields of `ma_device_info` the core reads. */
  datatype DeviceInfo = DeviceInfo(id: DeviceIdUnion, name: string, isDefault: uint32,
                                   nativeDataFormats: seq<NativeDataFormat>)
}
