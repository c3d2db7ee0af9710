/** `AudioStream` and its two leaf kinds: a stream input is a source whose
    producer pushes into its output ring, a stream output is a sink whose
    consumer pulls from its input ring. Each composes an `AudioEndpoint`. */
module Streams {
  import opened MaTypes
  import opened AudioFormats
  import opened Endpoints

  class AudioStream {
    const endpoint: AudioEndpoint

    /** Sets the format, and lets a sink fill its input ring and a source
        drain its output ring. */
    constructor (fmt: AudioFormat, isSource: bool, isSink: bool)
      ensures fresh(endpoint) && endpoint.Valid()
      ensures endpoint.audioFormat == fmt
      ensures endpoint.canFillInputRing == isSink && endpoint.canDrainOutputRing == isSource
      ensures endpoint.inputNeighbour == None && endpoint.outputNeighbour == None
      ensures !endpoint.hasInputToSelfConverter && !endpoint.hasSelfToOutputConverter
    {
      endpoint := new AudioEndpoint(fmt, isSink, isSource);
    }

    /** `pushToOutputRing`: writes into the output ring without looking at
        the capability flags; the input ring is not touched. */
    method PushToOutputRing(data: seq<Frame>)
      requires endpoint.Valid()
      modifies endpoint`outputRing
      ensures endpoint.Valid()
      ensures endpoint.outputRing == Written(old(endpoint.outputRing), data)
    {
      endpoint.outputRing := WriteRing(endpoint.outputRing, data);
    }

    /** `pullFromInputRing`: reads the oldest input frames without looking
        at the capability flags; the output ring is not touched. */
    method PullFromInputRing(frameCount: uint32) returns (out: seq<Frame>, read: uint32)
      requires endpoint.Valid()
      modifies endpoint`inputRing
      ensures endpoint.Valid()
      ensures read == ReadCount(old(endpoint.inputRing), frameCount) && read <= frameCount
      ensures out == old(endpoint.inputRing).frames[..read]
      ensures endpoint.inputRing == Drained(old(endpoint.inputRing), frameCount)
    {
      var total: nat;
      endpoint.inputRing, out, total := ReadRing(endpoint.inputRing, frameCount);
      read := total;
    }
  }

  /** `AudioStreamInput`: source only. */
  class AudioStreamInput {
    const stream: AudioStream

    constructor (format: AudioFormat)
      ensures fresh(stream) && fresh(stream.endpoint) && stream.endpoint.Valid()
      ensures stream.endpoint.audioFormat == format
      ensures stream.endpoint.canDrainOutputRing && !stream.endpoint.canFillInputRing
      ensures stream.endpoint.inputNeighbour == None && stream.endpoint.outputNeighbour == None
    {
      stream := new AudioStream(format, true, false);
    }

    /** `submitPCM`: queues the data in the output ring, dropping what does
        not fit. */
    method SubmitPCM(data: seq<Frame>)
      requires stream.endpoint.Valid()
      modifies stream.endpoint`outputRing
      ensures stream.endpoint.Valid()
      ensures stream.endpoint.outputRing == Written(old(stream.endpoint.outputRing), data)
    {
      stream.PushToOutputRing(data);
    }
  }

  /** `AudioStreamOutput`: sink only. */
  class AudioStreamOutput {
    const stream: AudioStream

    constructor (format: AudioFormat)
      ensures fresh(stream) && fresh(stream.endpoint) && stream.endpoint.Valid()
      ensures stream.endpoint.audioFormat == format
      ensures stream.endpoint.canFillInputRing && !stream.endpoint.canDrainOutputRing
      ensures stream.endpoint.inputNeighbour == None && stream.endpoint.outputNeighbour == None
    {
      stream := new AudioStream(format, false, true);
    }

    /** `receivePCM(pOut, n)`: takes up to `n` of the oldest input frames. */
    method ReceivePCM(frameCount: uint32) returns (out: seq<Frame>, read: uint32)
      requires stream.endpoint.Valid()
      modifies stream.endpoint`inputRing
      ensures stream.endpoint.Valid()
      ensures read == ReadCount(old(stream.endpoint.inputRing), frameCount)
      ensures out == old(stream.endpoint.inputRing).frames[..read]
      ensures stream.endpoint.inputRing == Drained(old(stream.endpoint.inputRing), frameCount)
    {
      out, read := stream.PullFromInputRing(frameCount);
    }
  }

  /** A stream input, once negotiated, hands its consumer exactly what its
      producer submitted when it fits the ring `renegotiate` as written
      builds (rate / (rate / 8) frames), ignores the inherited
      `receivePCM` and refuses `mixPCM`. */
  method StreamInputRoundTrip(format: AudioFormat, env: Env, data: seq<Frame>, ignored: seq<Frame>)
    returns (out: seq<Frame>, mix: MaResult)
    requires 8 <= format.sampleRate
    requires env.ringInit(format, format.sampleRate / (format.sampleRate / 8)) == Success
    requires |data| <= format.sampleRate / (format.sampleRate / 8)
    ensures out == data
    ensures mix == InvalidOperation
  {
    var input := new AudioStreamInput(format);
    var e := input.stream.endpoint;
    e.RenegotiateAsWritten(env);
    assert e.outputRing == PcmRing(format.sampleRate / (format.sampleRate / 8), []);
    input.SubmitPCM(data);
    e.ReceivePCM(ignored, []);
    var read;
    out, read := e.SubmitPCM(|data|);
    assert data[..|data|] == data;
    mix := e.MixPCM(Success, []);
  }

  /** A stream output, once negotiated, gives back exactly what its producer
      delivered when it fits the ring `renegotiate` as written builds; the
      inherited `submitPCM` yields
      nothing and `mixPCM` is refused. */
  method StreamOutputRoundTrip(format: AudioFormat, env: Env, data: seq<Frame>)
    returns (out: seq<Frame>, submitted: uint32, mix: MaResult)
    requires 8 <= format.sampleRate
    requires env.ringInit(format, format.sampleRate / (format.sampleRate / 8)) == Success
    requires |data| <= format.sampleRate / (format.sampleRate / 8)
    ensures out == data
    ensures submitted == 0
    ensures mix == InvalidOperation
  {
    var output := new AudioStreamOutput(format);
    var e := output.stream.endpoint;
    e.RenegotiateAsWritten(env);
    assert e.inputRing == PcmRing(format.sampleRate / (format.sampleRate / 8), []);
    e.ReceivePCM(data, []);
    var nothing;
    nothing, submitted := e.SubmitPCM(|data|);
    mix := e.MixPCM(Success, []);
    var read;
    out, read := output.ReceivePCM(|data|);
    assert data[..|data|] == data;
  }
}
