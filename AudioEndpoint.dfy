/** `AudioEndpoint`: two bounded PCM FIFOs (`ma_pcm_rb`), the acquire/commit
    loops that fill and drain them, the fixed receive/submit/mix pipeline,
    and the renegotiation that rebuilds converters and rings. */
module Endpoints {
  import opened MaTypes
  import opened AudioFormats

  /** One PCM frame: the bytes of one sample per channel. */
  type Frame = seq<bv8>

  function Min(a: nat, b: nat): nat
  {
    if a <= b then a else b
  }

  /** `ma_pcm_rb` as a capacity-bounded FIFO of frames, oldest first. */
  datatype PcmRing = PcmRing(capacity: nat, frames: seq<Frame>) {
    predicate Valid()
    {
      |frames| <= capacity
    }

    /** `ma_pcm_rb_available_write`. */
    function Free(): nat
      requires Valid()
    {
      capacity - |frames|
    }

    /** `ma_pcm_rb_available_read`. */
    function Available(): nat
    {
      |frames|
    }
  }

  /** A zero-initialised ring, or one whose initialisation failed. */
  function UninitializedRing(): (rb: PcmRing)
    ensures rb.Valid() && rb.capacity == 0 && rb.frames == []
  {
    PcmRing(0, [])
  }

  /** The ring after writing as much of `data` as fits: the excess is dropped. */
  function Written(rb: PcmRing, data: seq<Frame>): PcmRing
    requires rb.Valid()
  {
    PcmRing(rb.capacity, rb.frames + data[..Min(|data|, rb.Free())])
  }

  /** How many frames a read of `n` frames obtains. */
  function ReadCount(rb: PcmRing, n: nat): nat
  {
    Min(n, |rb.frames|)
  }

  /** The ring after a read of `n` frames. */
  function Drained(rb: PcmRing, n: nat): PcmRing
  {
    PcmRing(rb.capacity, rb.frames[ReadCount(rb, n)..])
  }

  /** `ma_pcm_rb_acquire_write`: a contiguous chunk of at most the requested
      size and the free space; the library may hand out less than both (the
      chunk stops at the end of the buffer), but never nothing while both
      are positive. */
  method AcquireWrite(rb: PcmRing, requested: nat) returns (k: nat)
    requires rb.Valid()
    ensures k <= requested && k <= rb.Free()
    ensures k == 0 <==> requested == 0 || rb.Free() == 0
  {
    assert Min(requested, rb.Free()) <= requested;
    k :| k <= requested && k <= rb.Free() && (k == 0 <==> requested == 0 || rb.Free() == 0);
  }

  /** `ma_pcm_rb_commit_write` after copying `chunk` into the acquired space. */
  function CommitWrite(rb: PcmRing, chunk: seq<Frame>): (r: PcmRing)
    requires rb.Valid() && |chunk| <= rb.Free()
    ensures r.Valid() && r.capacity == rb.capacity && r.Free() == rb.Free() - |chunk|
  {
    PcmRing(rb.capacity, rb.frames + chunk)
  }

  /** `ma_pcm_rb_acquire_read`: a contiguous chunk of at most the requested
      size and the available frames, never nothing while both are positive. */
  method AcquireRead(rb: PcmRing, requested: nat) returns (k: nat)
    ensures k <= requested && k <= |rb.frames|
    ensures k == 0 <==> requested == 0 || |rb.frames| == 0
  {
    assert Min(requested, |rb.frames|) <= requested;
    k :| k <= requested && k <= |rb.frames| && (k == 0 <==> requested == 0 || |rb.frames| == 0);
  }

  /** `ma_pcm_rb_commit_read` of `k` frames. */
  function CommitRead(rb: PcmRing, k: nat): (r: PcmRing)
    requires k <= |rb.frames|
    ensures r.capacity == rb.capacity && r.frames == rb.frames[k..]
  {
    PcmRing(rb.capacity, rb.frames[k..])
  }

  /** `writeRing`: acquire, copy, commit until everything is written or the
      ring is full. Exactly min(|data|, free) leading frames are appended. */
  method WriteRing(rb: PcmRing, data: seq<Frame>) returns (r: PcmRing)
    requires rb.Valid()
    ensures r.Valid() && r.capacity == rb.capacity
    ensures |r.frames| == |rb.frames| + Min(|data|, rb.Free())
    ensures r.frames == rb.frames + data[..Min(|data|, rb.Free())]
  {
    r := rb;
    var framesToWrite: nat := |data|;
    var offset: nat := 0;
    while framesToWrite > 0
      invariant offset + framesToWrite == |data|
      invariant r.Valid() && r.capacity == rb.capacity
      invariant r.frames == rb.frames + data[..offset]
      invariant offset <= rb.Free()
      decreases framesToWrite
    {
      var writable := AcquireWrite(r, framesToWrite);
      if writable == 0 {
        break;
      }
      assert data[..offset + writable] == data[..offset] + data[offset..offset + writable];
      r := CommitWrite(r, data[offset..offset + writable]);
      framesToWrite := framesToWrite - writable;
      offset := offset + writable;
    }
    assert offset == Min(|data|, rb.Free());
  }

  /** `readRing`: acquire, copy out, commit until `frames` frames are read or
      the ring is empty; returns the frames read, oldest first. */
  method ReadRing(rb: PcmRing, frames: nat) returns (r: PcmRing, out: seq<Frame>, totalRead: nat)
    requires rb.Valid()
    ensures totalRead == Min(frames, |rb.frames|) && |out| == totalRead
    ensures out == rb.frames[..totalRead]
    ensures r.Valid() && r.capacity == rb.capacity && r.frames == rb.frames[totalRead..]
  {
    r := rb;
    out := [];
    totalRead := 0;
    var framesToRead := frames;
    while framesToRead > 0
      invariant totalRead + framesToRead == frames
      invariant totalRead <= |rb.frames|
      invariant out == rb.frames[..totalRead]
      invariant r.capacity == rb.capacity && r.frames == rb.frames[totalRead..]
      decreases framesToRead
    {
      var readable := AcquireRead(r, framesToRead);
      if readable == 0 {
        break;
      }
      assert rb.frames[..totalRead + readable] == rb.frames[..totalRead] + r.frames[..readable];
      out := out + r.frames[..readable];
      r := CommitRead(r, readable);
      assert rb.frames[totalRead + readable..] == r.frames;
      totalRead := totalRead + readable;
      framesToRead := framesToRead - readable;
    }
  }

  /** Writing never overfills and keeps what was already queued in front. */
  lemma WrittenBounded(rb: PcmRing, data: seq<Frame>)
    requires rb.Valid()
    ensures Written(rb, data).Valid()
    ensures Written(rb, data).frames[..|rb.frames|] == rb.frames
    ensures |data| <= rb.Free() ==> Written(rb, data).frames == rb.frames + data
  {
    assert (rb.frames + data[..Min(|data|, rb.Free())])[..|rb.frames|] == rb.frames;
  }

  /** FIFO order: after a write, the next reads return the old frames first
      and then the written ones, and a write that fits comes back whole. */
  lemma {:induction false} FifoRoundTrip(rb: PcmRing, data: seq<Frame>)
    requires rb.Valid() && |data| <= rb.Free()
    ensures ReadCount(Written(rb, data), |rb.frames| + |data|) == |rb.frames| + |data|
    ensures Written(rb, data).frames[..|rb.frames|] == rb.frames
    ensures Drained(Written(rb, data), |rb.frames|).frames == data
  {
    var w := Written(rb, data);
    assert data[..|data|] == data;
    assert w.frames == rb.frames + data;
    assert w.frames[|rb.frames|..] == data;
  }

  /** What the foreign initialisers report: `ma_data_converter_init` for a
      (from, to) pair and `ma_pcm_rb_init` for a (format, frames) pair. */
  datatype Env = Env(
    converterInit: (AudioFormat, AudioFormat) -> MaResult,
    ringInit: (AudioFormat, uint32) -> MaResult)

  class AudioEndpoint {
    var audioFormat: AudioFormat
    /** The formats of the upstream (`inputNode`) and downstream
        (`outputNode`) neighbours, when there are any. */
    var inputNeighbour: Option<AudioFormat>
    var outputNeighbour: Option<AudioFormat>

    var canFillInputRing: bool
    var canDrainOutputRing: bool

    var hasInputToSelfConverter: bool
    var hasSelfToOutputConverter: bool
    var areConvertersReady: bool

    var inputRing: PcmRing
    var outputRing: PcmRing
    var inputRingFrames: uint32
    var outputRingFrames: uint32
    var inputRingFormat: AudioFormat
    var outputRingFormat: AudioFormat

    var isNegociationDone: bool

    ghost predicate Valid()
      reads this
    {
      inputRing.Valid() && outputRing.Valid()
    }

    constructor (fmt: AudioFormat, canFill: bool, canDrain: bool)
      ensures Valid()
      ensures audioFormat == fmt && canFillInputRing == canFill && canDrainOutputRing == canDrain
      ensures inputNeighbour == None && outputNeighbour == None
      ensures !hasInputToSelfConverter && !hasSelfToOutputConverter && !areConvertersReady
      ensures inputRing == UninitializedRing() && outputRing == UninitializedRing()
      ensures inputRingFrames == 0 && outputRingFrames == 0
      ensures inputRingFormat == Default() && outputRingFormat == Default()
      ensures !isNegociationDone
    {
      audioFormat := fmt;
      inputNeighbour, outputNeighbour := None, None;
      canFillInputRing, canDrainOutputRing := canFill, canDrain;
      hasInputToSelfConverter, hasSelfToOutputConverter, areConvertersReady := false, false, false;
      inputRing, outputRing := UninitializedRing(), UninitializedRing();
      inputRingFrames, outputRingFrames := 0, 0;
      inputRingFormat, outputRingFormat := Default(), Default();
      isNegociationDone := false;
    }

    /** An input converter is needed when there is an upstream format and it
        differs from the own format. */
    predicate NeedsInputConverter()
      reads this
    {
      inputNeighbour.Some? && NotEqual(audioFormat, inputNeighbour.value)
    }

    /** The neighbour's sample rate when there is one, else the own rate. */
    function InputRate(): uint32
      reads this
    {
      if inputNeighbour.Some? then inputNeighbour.value.sampleRate else audioFormat.sampleRate
    }

    function OutputRate(): uint32
      reads this
    {
      if outputNeighbour.Some? then outputNeighbour.value.sampleRate else audioFormat.sampleRate
    }

    /** The neighbour's format when there is one, else the own format. */
    function InputRingFormatChoice(): AudioFormat
      reads this
    {
      if inputNeighbour.Some? then inputNeighbour.value else audioFormat
    }

    function OutputRingFormatChoice(): AudioFormat
      reads this
    {
      if outputNeighbour.Some? then outputNeighbour.value else audioFormat
    }

    /** `buildConverters`: drops both converters, then builds the input one if
        needed and, if that worked, the output one whenever there is a
        downstream format (equal formats included). */
    method BuildConverters(env: Env) returns (r: MaResult)
      modifies this`hasInputToSelfConverter, this`hasSelfToOutputConverter, this`areConvertersReady
      ensures NeedsInputConverter() && env.converterInit(inputNeighbour.value, audioFormat) != Success ==>
                r == env.converterInit(inputNeighbour.value, audioFormat) &&
                !hasInputToSelfConverter && !hasSelfToOutputConverter
      ensures hasInputToSelfConverter <==>
                NeedsInputConverter() && env.converterInit(inputNeighbour.value, audioFormat) == Success
      ensures hasSelfToOutputConverter <==>
                (!NeedsInputConverter() || env.converterInit(inputNeighbour.value, audioFormat) == Success) &&
                outputNeighbour.Some? && env.converterInit(audioFormat, outputNeighbour.value) == Success
      ensures (!NeedsInputConverter() || env.converterInit(inputNeighbour.value, audioFormat) == Success) ==>
                r == (if outputNeighbour.Some? then env.converterInit(audioFormat, outputNeighbour.value) else Success)
      ensures areConvertersReady <==> r == Success && (hasInputToSelfConverter || hasSelfToOutputConverter)
    {
      areConvertersReady := false;
      hasInputToSelfConverter := false;
      hasSelfToOutputConverter := false;
      var result := Success;
      if inputNeighbour.Some? && NotEqual(audioFormat, inputNeighbour.value) {
        result := env.converterInit(inputNeighbour.value, audioFormat);
        hasInputToSelfConverter := result == Success;
      }
      if result != Success {
        return result;
      }
      if outputNeighbour.Some? {
        result := env.converterInit(audioFormat, outputNeighbour.value);
        hasSelfToOutputConverter := result == Success;
      }
      if result != Success {
        return result;
      }
      areConvertersReady := hasInputToSelfConverter || hasSelfToOutputConverter;
      return result;
    }

    /** `initializeRings`: sizes both rings as (neighbour rate, else own
        rate) divided by the divisors, and re-initialises the rings this
        endpoint uses, in the neighbour's format, else its own. The divisors
        must be nonzero: C++ division by zero is undefined. */
    method InitializeRings(env: Env, inputDivisor: uint32, outputDivisor: uint32) returns (r: MaResult)
      requires Valid()
      requires inputDivisor > 0 && outputDivisor > 0
      modifies this`inputRingFrames, this`outputRingFrames, this`inputRingFormat, this`outputRingFormat,
               this`inputRing, this`outputRing
      ensures Valid()
      ensures inputRingFrames == InputRate() / inputDivisor
      ensures outputRingFrames == OutputRate() / outputDivisor
      ensures canFillInputRing ==> inputRingFormat == InputRingFormatChoice()
      ensures canFillInputRing ==>
                inputRing == (if env.ringInit(inputRingFormat, inputRingFrames) == Success
                              then PcmRing(inputRingFrames, []) else UninitializedRing())
      ensures !canFillInputRing ==> inputRingFormat == old(inputRingFormat) && inputRing == old(inputRing)
      ensures canFillInputRing && env.ringInit(inputRingFormat, inputRingFrames) != Success ==>
                r == env.ringInit(inputRingFormat, inputRingFrames) &&
                outputRingFormat == old(outputRingFormat) && outputRing == old(outputRing)
      ensures !canFillInputRing || env.ringInit(inputRingFormat, inputRingFrames) == Success ==>
                (canDrainOutputRing ==> outputRingFormat == OutputRingFormatChoice()) &&
                (canDrainOutputRing ==>
                  outputRing == (if env.ringInit(outputRingFormat, outputRingFrames) == Success
                                 then PcmRing(outputRingFrames, []) else UninitializedRing())) &&
                (!canDrainOutputRing ==> outputRingFormat == old(outputRingFormat) && outputRing == old(outputRing)) &&
                r == (if canDrainOutputRing then env.ringInit(outputRingFormat, outputRingFrames) else Success)
    {
      inputRingFrames := InputRate() / inputDivisor;
      outputRingFrames := OutputRate() / outputDivisor;
      var result := Success;
      if canFillInputRing {
        inputRingFormat := InputRingFormatChoice();
        result := env.ringInit(inputRingFormat, inputRingFrames);
        inputRing := if result == Success then PcmRing(inputRingFrames, []) else UninitializedRing();
        if result != Success {
          return result;
        }
      }
      if canDrainOutputRing {
        outputRingFormat := OutputRingFormatChoice();
        result := env.ringInit(outputRingFormat, outputRingFrames);
        outputRing := if result == Success then PcmRing(outputRingFrames, []) else UninitializedRing();
        if result != Success {
          return result;
        }
      }
      return Success;
    }

    /** Whether `InitializeRings` with these divisors reports success; it only
        depends on fields that `BuildConverters` does not change. */
    predicate RingsInitSucceed(env: Env, inputDivisor: uint32, outputDivisor: uint32)
      reads this
      requires inputDivisor > 0 && outputDivisor > 0
    {
      (!canFillInputRing || env.ringInit(InputRingFormatChoice(), InputRate() / inputDivisor) == Success) &&
      (!canDrainOutputRing || env.ringInit(OutputRingFormatChoice(), OutputRate() / outputDivisor) == Success)
    }

    /** Whether `BuildConverters` reports success in the current state. */
    predicate ConvertersBuild(env: Env)
      reads this
    {
      (!NeedsInputConverter() || env.converterInit(inputNeighbour.value, audioFormat) == Success) &&
      (outputNeighbour.None? || env.converterInit(audioFormat, outputNeighbour.value) == Success)
    }

    /** The converter flags `buildConverters` leaves, in terms of the fields
        it does not change. */
    predicate ConvertersAsBuilt(env: Env)
      reads this
    {
      && (hasInputToSelfConverter <==>
            NeedsInputConverter() && env.converterInit(inputNeighbour.value, audioFormat) == Success)
      && (hasSelfToOutputConverter <==>
            (!NeedsInputConverter() || env.converterInit(inputNeighbour.value, audioFormat) == Success) &&
            outputNeighbour.Some? && env.converterInit(audioFormat, outputNeighbour.value) == Success)
      && (areConvertersReady <==> ConvertersBuild(env) && (hasInputToSelfConverter || hasSelfToOutputConverter))
    }

    /** A ring after `ma_pcm_rb_init` with this format and size reported its
        outcome: empty with that capacity, or uninitialised. */
    static function RingAfterInit(env: Env, fmt: AudioFormat, frames: uint32): PcmRing
    {
      if env.ringInit(fmt, frames) == Success then PcmRing(frames, []) else UninitializedRing()
    }

    /** Whether `initializeRings` got past the input ring. */
    predicate InputRingReady(env: Env)
      reads this
    {
      !canFillInputRing || env.ringInit(inputRingFormat, inputRingFrames) == Success
    }

    /** What `renegotiate` leaves when `initializeRings` receives these
        divisors, in terms of the fields it does not change:
        - the converters are as `buildConverters` builds them;
        - negotiation is done iff the converters and every ring the
          endpoint uses could be built;
        - after a converter build, each ring is sized rate / divisor and
          re-initialised in its chosen format, and the output ring only
          when the input ring succeeded. */
    predicate NegotiatedWith(env: Env, inputDivisor: uint32, outputDivisor: uint32)
      reads this
      requires inputDivisor > 0 && outputDivisor > 0
    {
      && ConvertersAsBuilt(env)
      && (isNegociationDone <==> ConvertersBuild(env) && RingsInitSucceed(env, inputDivisor, outputDivisor))
      && (ConvertersBuild(env) ==>
            && inputRingFrames == InputRate() / inputDivisor
            && outputRingFrames == OutputRate() / outputDivisor
            && (canFillInputRing ==>
                  inputRingFormat == InputRingFormatChoice() &&
                  inputRing == RingAfterInit(env, inputRingFormat, inputRingFrames))
            && (canDrainOutputRing && InputRingReady(env) ==>
                  outputRingFormat == OutputRingFormatChoice() &&
                  outputRing == RingAfterInit(env, outputRingFormat, outputRingFrames)))
    }

    /** The whole state change of `renegotiate` with these divisors: the
        format, neighbours and capability flags stay, the new state is
        `NegotiatedWith`, and what `renegotiate` returns before touching
        keeps its old value: every ring field when the converters fail, a
        ring the endpoint does not use, and the output ring when the input
        ring failed. */
    twostate predicate RenegotiatedWith(env: Env, inputDivisor: uint32, outputDivisor: uint32)
      reads this
      requires inputDivisor > 0 && outputDivisor > 0
    {
      && audioFormat == old(audioFormat)
      && inputNeighbour == old(inputNeighbour) && outputNeighbour == old(outputNeighbour)
      && canFillInputRing == old(canFillInputRing) && canDrainOutputRing == old(canDrainOutputRing)
      && NegotiatedWith(env, inputDivisor, outputDivisor)
      && (!ConvertersBuild(env) ==>
            && inputRingFrames == old(inputRingFrames) && outputRingFrames == old(outputRingFrames)
            && inputRingFormat == old(inputRingFormat) && outputRingFormat == old(outputRingFormat)
            && inputRing == old(inputRing) && outputRing == old(outputRing))
      && (!canFillInputRing ==> inputRingFormat == old(inputRingFormat) && inputRing == old(inputRing))
      && (!canDrainOutputRing || !InputRingReady(env) ==>
            outputRingFormat == old(outputRingFormat) && outputRing == old(outputRing))
    }

    /** `renegotiate` with the ring size it evidently intends: one eighth of a
        second of frames per ring ("~8 chunks/sec"), i.e. the rate divided by 8. */
    method Renegotiate(env: Env)
      requires Valid()
      modifies this
      ensures Valid()
      ensures RenegotiatedWith(env, 8, 8)
    {
      isNegociationDone := false;
      var result := BuildConverters(env);
      if result != Success {
        isNegociationDone := false;
        return;
      }
      result := InitializeRings(env, 8, 8);
      isNegociationDone := result == Success;
    }

    /** `renegotiate` as written: it passes the ring sizes (rate / 8) where
        `initializeRings` expects divisors, so each ring holds
        rate / (rate / 8) frames; below 8 Hz that divisor is zero, which C++
        leaves undefined, so such rates are excluded. */
    method RenegotiateAsWritten(env: Env)
      requires Valid()
      requires InputRate() >= 8 && OutputRate() >= 8
      modifies this
      ensures Valid()
      ensures RenegotiatedWith(env, old(InputRate()) / 8, old(OutputRate()) / 8)
      ensures ConvertersBuild(env) ==>
                inputRingFrames as nat == AsWrittenRingFrames(InputRate()) &&
                outputRingFrames as nat == AsWrittenRingFrames(OutputRate())
    {
      isNegociationDone := false;
      var result := BuildConverters(env);
      if result != Success {
        isNegociationDone := false;
        return;
      }
      var inputFrames := InputRate() / 8;
      var outputFrames := OutputRate() / 8;
      result := InitializeRings(env, inputFrames, outputFrames);
      isNegociationDone := result == Success;
    }

    /** `receivePCM`: nothing unless the endpoint fills its input ring; then
        the converter's output (or, without a converter, the data itself) is
        written to the input ring, dropping what does not fit. `converted` is
        what the input converter produces from `data` (at most as many frames). */
    method ReceivePCM(data: seq<Frame>, converted: seq<Frame>)
      requires Valid()
      requires |converted| <= |data|
      modifies this`inputRing
      ensures Valid()
      ensures !canFillInputRing ==> inputRing == old(inputRing)
      ensures canFillInputRing && !hasInputToSelfConverter ==> inputRing == Written(old(inputRing), data)
      ensures canFillInputRing && hasInputToSelfConverter ==> inputRing == Written(old(inputRing), converted)
    {
      if !canFillInputRing {
        return;
      }
      if hasInputToSelfConverter {
        inputRing := WriteRing(inputRing, converted);
      } else {
        inputRing := WriteRing(inputRing, data);
      }
    }

    /** `submitPCM`: 0 frames unless the endpoint drains its output ring;
        otherwise up to `frameCount` of the oldest output frames. */
    method SubmitPCM(frameCount: uint32) returns (out: seq<Frame>, read: uint32)
      requires Valid()
      modifies this`outputRing
      ensures Valid()
      ensures !canDrainOutputRing ==> read == 0 && out == [] && outputRing == old(outputRing)
      ensures canDrainOutputRing ==>
                read == ReadCount(old(outputRing), frameCount) &&
                out == old(outputRing).frames[..read] && outputRing == Drained(old(outputRing), frameCount)
      ensures read <= frameCount && |out| == read
    {
      if !canDrainOutputRing {
        return [], 0;
      }
      var total: nat;
      outputRing, out, total := ReadRing(outputRing, frameCount);
      read := total;
    }

    /** `mixPCM`: drains the whole input ring and writes it, through the
        output converter when there is one, into the output ring.
        `convResult`/`converted` are what the output converter reports and
        produces for the drained frames. */
    method MixPCM(convResult: MaResult, converted: seq<Frame>) returns (r: MaResult)
      requires Valid()
      requires |converted| <= |inputRing.frames|
      modifies this`inputRing, this`outputRing
      ensures Valid()
      ensures !canFillInputRing || !canDrainOutputRing ==>
                r == InvalidOperation && inputRing == old(inputRing) && outputRing == old(outputRing)
      ensures canFillInputRing && canDrainOutputRing && old(inputRing).frames == [] ==>
                r == NoDataAvailable && inputRing == old(inputRing) && outputRing == old(outputRing)
      ensures canFillInputRing && canDrainOutputRing && old(inputRing).frames != [] ==>
                inputRing == PcmRing(old(inputRing).capacity, [])
      ensures canFillInputRing && canDrainOutputRing && old(inputRing).frames != [] && !hasSelfToOutputConverter ==>
                r == Success && outputRing == Written(old(outputRing), old(inputRing).frames)
      ensures canFillInputRing && canDrainOutputRing && old(inputRing).frames != [] && hasSelfToOutputConverter ==>
                r == convResult &&
                outputRing == (if convResult == Success then Written(old(outputRing), converted) else old(outputRing))
    {
      if !canFillInputRing || !canDrainOutputRing {
        return InvalidOperation;
      }
      var available := inputRing.Available();
      if available == 0 {
        return NoDataAvailable;
      }
      var temp, total;
      inputRing, temp, total := ReadRing(inputRing, available);
      if hasSelfToOutputConverter {
        if convResult != Success {
          return convResult;
        }
        outputRing := WriteRing(outputRing, converted);
      } else {
        outputRing := WriteRing(outputRing, temp);
      }
      return Success;
    }
  }

  /** The ring size `renegotiate` ends up with as written. */
  function AsWrittenRingFrames(rate: uint32): nat
    requires rate >= 8
  {
    rate / (rate / 8)
  }

  /** A positive factor can be cancelled from a strict inequality. */
  lemma CancelFactor(x: int, y: int, q: int)
    requires q > 0 && x * q < y * q
    ensures x < y
  {
    assert (y - x) * q == y * q - x * q;
  }

  /** As written, a ring holds between 8 and 15 frames whatever the rate. */
  lemma AsWrittenRingFramesBounds(rate: uint32)
    requires rate >= 8
    ensures 8 <= AsWrittenRingFrames(rate) <= 15
  {
    var q := rate / 8;
    assert 1 <= q && 8 * q <= rate < 8 * q + 8;
    var d := rate / q;
    assert d * q <= rate < d * q + q;
    assert 7 * q < d * q by {
      assert (d + 1) * q == d * q + q;
    }
    CancelFactor(7, d, q);
    assert d * q < 16 * q;
    CancelFactor(d, 16, q);
  }

  /** At 48 kHz the as-written ring holds 8 frames instead of 6000. */
  lemma AsWrittenRingAt48k()
    ensures AsWrittenRingFrames(48000) == 8
    ensures 48000 / 8 == 6000
  {
  }

  /** Below 8 Hz the value renegotiate passes as a divisor is zero. */
  lemma AsWrittenDivisorZero(rate: uint32)
    requires rate < 8
    ensures rate / 8 == 0
  {
  }
}
