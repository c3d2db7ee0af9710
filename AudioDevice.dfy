/** A hardware device: an endpoint plus the lifecycle of the miniaudio
    engine that drives it (`wakeUp`, `sleep`, `ensureAwake`) and the
    refresh of its name, info and format (`updateDevice`). */
module Devices {
  import opened MaTypes
  import opened AudioFormats
  import opened Endpoints

  /** The dynamic type of a device: `AudioSpeakerDevice` or
      `AudioMicrophoneDevice`. */
  datatype DeviceKind = Speaker | Microphone

  /** An engine the device owns; `device` stands for its `pDevice`. */
  datatype Engine = Engine(device: nat)

  class AudioDevice {
    /** The endpoint part of the device (its base class). */
    const endpoint: AudioEndpoint
    const kind: DeviceKind
    const id: string
    var name: string
    var deviceFormat: AudioFormat
    var deviceInfo: DeviceInfo
    var isDefault: bool
    var isAwake: bool
    var engine: Option<Engine>
    /** The engine's device handle while the device holds one. */
    var internalDevice: Option<nat>

    /** `internalDevice` only ever names the device of the engine held. */
    predicate HandleOwned()
      reads this
    {
      internalDevice.Some? ==> engine.Some? && internalDevice.value == engine.value.device
    }

    ghost predicate Valid()
      reads this, endpoint
    {
      endpoint.Valid() && HandleOwned()
    }

    /** `AudioDevice(deviceId)`: an asleep device with that id and a
        default-constructed endpoint; `deviceInfo` is left default-initialised
        by C++ (indeterminate), so nothing is promised about it here. */
    constructor (deviceId: string, k: DeviceKind)
      ensures Valid() && fresh(endpoint)
      ensures id == deviceId && kind == k
      ensures name == "" && deviceFormat == Default() && !isDefault
      ensures !isAwake && engine == None && internalDevice == None
      ensures endpoint.audioFormat == Default() && !endpoint.canFillInputRing && !endpoint.canDrainOutputRing
      ensures endpoint.inputNeighbour == None && endpoint.outputNeighbour == None && !endpoint.isNegociationDone
    {
      endpoint := new AudioEndpoint(Default(), false, false);
      kind := k;
      id := deviceId;
      name := "";
      deviceFormat := Default();
      isDefault := false;
      isAwake := false;
      engine := None;
      internalDevice := None;
    }

    /** The ring fields a renegotiation of the endpoint leaves as they were:
        all of them when the converters fail, the input ring when the
        endpoint does not fill it, and the output ring when the endpoint does
        not drain it or the input ring failed first. */
    twostate predicate RingsKept(env: Env)
      reads this, endpoint
    {
      && (!endpoint.ConvertersBuild(env) ==>
            && endpoint.inputRingFrames == old(endpoint.inputRingFrames)
            && endpoint.outputRingFrames == old(endpoint.outputRingFrames)
            && endpoint.inputRingFormat == old(endpoint.inputRingFormat)
            && endpoint.outputRingFormat == old(endpoint.outputRingFormat)
            && endpoint.inputRing == old(endpoint.inputRing) && endpoint.outputRing == old(endpoint.outputRing))
      && (!endpoint.canFillInputRing ==>
            endpoint.inputRingFormat == old(endpoint.inputRingFormat) && endpoint.inputRing == old(endpoint.inputRing))
      && (!endpoint.canDrainOutputRing || !endpoint.InputRingReady(env) ==>
            endpoint.outputRingFormat == old(endpoint.outputRingFormat) && endpoint.outputRing == old(endpoint.outputRing))
    }

    /** What `wakeUp` leaves when `ma_engine_init` reports `initResult` and
        the engine's device handle is `handle`. */
    twostate predicate WokeUp(env: Env, initResult: MaResult, handle: nat)
      reads this, endpoint
    {
      if initResult == Success then
        && engine == Some(Engine(handle)) && internalDevice == Some(handle) && isAwake
        && endpoint.audioFormat == deviceFormat && endpoint.NegotiatedWith(env, 8, 8) && RingsKept(env)
        && endpoint.inputNeighbour == old(endpoint.inputNeighbour)
        && endpoint.outputNeighbour == old(endpoint.outputNeighbour)
        && endpoint.canFillInputRing == old(endpoint.canFillInputRing)
        && endpoint.canDrainOutputRing == old(endpoint.canDrainOutputRing)
      else
        && engine == None && internalDevice == None && isAwake == old(isAwake)
        && unchanged(endpoint)
    }

    /** `wakeUp`, with the failure branch clearing `internalDevice` as it
        evidently intends: on success the device is awake, holds the new
        engine, takes the device format and renegotiates; on failure it
        releases the engine and keeps `isAwake`. */
    method WakeUp(env: Env, initResult: MaResult, handle: nat) returns (r: MaResult)
      requires Valid()
      modifies this`engine, this`internalDevice, this`isAwake, endpoint
      ensures Valid()
      ensures r == initResult
      ensures WokeUp(env, initResult, handle)
    {
      engine := Some(Engine(handle));
      var result := initResult;
      if result == Success {
        internalDevice := Some(engine.value.device);
        isAwake := true;
        endpoint.audioFormat := deviceFormat;
        endpoint.Renegotiate(env);
      } else {
        internalDevice := None;
        engine := None;
      }
      return result;
    }

    /** The rates `renegotiate` divides by eight once `wakeUp` has given the
        endpoint the device format (a neighbour's rate where there is one,
        else the device rate) are at least 8, so `renegotiate` as written
        does not divide by zero. */
    predicate AsWrittenWakeDefined()
      reads this, endpoint
    {
      && (if endpoint.inputNeighbour.Some? then endpoint.inputNeighbour.value.sampleRate else deviceFormat.sampleRate) >= 8
      && (if endpoint.outputNeighbour.Some? then endpoint.outputNeighbour.value.sampleRate else deviceFormat.sampleRate) >= 8
    }

    /** `wakeUp` as written: the failure branch compares `internalDevice`
        with null instead of clearing it, so the handle of a released engine
        survives; on success it calls `renegotiate` as written, whose rings
        hold rate / (rate / 8) frames. */
    method WakeUpAsWritten(env: Env, initResult: MaResult, handle: nat) returns (r: MaResult)
      requires Valid()
      requires initResult == Success ==> AsWrittenWakeDefined()
      modifies this`engine, this`internalDevice, this`isAwake, endpoint
      ensures endpoint.Valid()
      ensures r == initResult
      ensures initResult == Success ==>
        && Valid() && engine == Some(Engine(handle)) && internalDevice == Some(handle) && isAwake
        && endpoint.audioFormat == deviceFormat
        && endpoint.inputNeighbour == old(endpoint.inputNeighbour)
        && endpoint.outputNeighbour == old(endpoint.outputNeighbour)
        && endpoint.canFillInputRing == old(endpoint.canFillInputRing)
        && endpoint.canDrainOutputRing == old(endpoint.canDrainOutputRing)
        && endpoint.InputRate() >= 8 && endpoint.OutputRate() >= 8
        && endpoint.NegotiatedWith(env, endpoint.InputRate() / 8, endpoint.OutputRate() / 8)
        && RingsKept(env)
      ensures initResult != Success ==>
        engine == None && internalDevice == old(internalDevice) && isAwake == old(isAwake) && unchanged(endpoint)
    {
      engine := Some(Engine(handle));
      var result := initResult;
      if result == Success {
        internalDevice := Some(engine.value.device);
        isAwake := true;
        endpoint.audioFormat := deviceFormat;
        endpoint.RenegotiateAsWritten(env);
      } else {
        engine := None;
      }
      return result;
    }

    /** `sleep`: drops the handle and the engine and marks the device
        asleep; the resulting state does not depend on the state before, so
        a second call changes nothing. */
    method Sleep()
      modifies this`engine, this`internalDevice, this`isAwake
      ensures !isAwake && engine == None && internalDevice == None
    {
      if internalDevice.Some? {
        internalDevice := None;
      }
      if engine.Some? {
        engine := None;
      }
      isAwake := false;
    }

    /** `ensureAwake`: success without any change when awake, `wakeUp`
        otherwise. */
    method EnsureAwake(env: Env, initResult: MaResult, handle: nat) returns (r: MaResult)
      requires Valid()
      modifies this`engine, this`internalDevice, this`isAwake, endpoint
      ensures Valid()
      ensures old(isAwake) ==> r == Success && unchanged(this) && unchanged(endpoint)
      ensures !old(isAwake) ==> r == initResult && WokeUp(env, initResult, handle)
    {
      if !isAwake {
        r := WakeUp(env, initResult, handle);
      } else {
        r := Success;
      }
    }

    /** `updateDevice`: copies name, info and the default flag from the
        enumerated info; only a format that differs from the device format
        is taken over (by the device and its endpoint) and renegotiated. */
    method UpdateDevice(info: DeviceInfo, format: SampleFormat, sampleRate: uint32, channels: uint32, env: Env)
      requires Valid()
      modifies this`name, this`deviceInfo, this`isDefault, this`deviceFormat, endpoint
      ensures Valid()
      ensures name == info.name && deviceInfo == info && isDefault == (info.isDefault != 0)
      ensures Equal(deviceFormat, Make(format, channels, sampleRate))
      ensures NotEqual(old(deviceFormat), Make(format, channels, sampleRate)) ==>
        && deviceFormat == Make(format, channels, sampleRate)
        && endpoint.audioFormat == deviceFormat && endpoint.NegotiatedWith(env, 8, 8) && RingsKept(env)
        && endpoint.inputNeighbour == old(endpoint.inputNeighbour)
        && endpoint.outputNeighbour == old(endpoint.outputNeighbour)
        && endpoint.canFillInputRing == old(endpoint.canFillInputRing)
        && endpoint.canDrainOutputRing == old(endpoint.canDrainOutputRing)
      ensures Equal(old(deviceFormat), Make(format, channels, sampleRate)) ==>
        deviceFormat == old(deviceFormat) && unchanged(endpoint)
    {
      name := info.name;
      deviceInfo := info;
      isDefault := info.isDefault != 0;
      var newFormat := Make(format, channels, sampleRate);
      EqualityLaws(deviceFormat, newFormat, newFormat);
      if NotEqual(deviceFormat, newFormat) {
        deviceFormat := newFormat;
        endpoint.audioFormat := newFormat;
        endpoint.Renegotiate(env);
      }
    }

    /** The destructor: calls `sleep`, so a destroyed device ends asleep. */
    method Destroy()
      modifies this`engine, this`internalDevice, this`isAwake
      ensures !isAwake && engine == None && internalDevice == None
    {
      Sleep();
    }
  }

  /** `onDeviceData`: the data callback reaches a device only through a
      non-null user pointer; the base `dataCallback` does nothing. */
  method OnDeviceData(user: Option<AudioDevice>) returns (dispatched: bool)
    ensures dispatched <==> user.Some?
  {
    if user.None? {
      return false;
    }
    dispatched := true;
  }

  /** A speaker enumerated with this info at 48 kHz, stereo, 32-bit float:
      the state the registry leaves a device in before anything wakes it. */
  method EnumeratedSpeaker(info: DeviceInfo, env: Env) returns (d: AudioDevice)
    ensures fresh(d) && fresh(d.endpoint) && d.Valid()
    ensures !d.isAwake && d.engine == None && d.internalDevice == None
    ensures d.deviceFormat == Make(F32, 2, 48000)
    ensures d.endpoint.inputNeighbour == None && d.endpoint.outputNeighbour == None
  {
    d := new AudioDevice("alsa:hw:0,0_1", Speaker);
    d.UpdateDevice(info, F32, 48000, 2, env);
  }

  /** With the corrected `wakeUp`, a failed second wake-up of an awake
      device leaves it awake without a handle or an engine. */
  method FailedRewakeReleasesHandle(info: DeviceInfo, env: Env, failure: MaResult)
    returns (awake: bool, handle: Option<nat>, held: Option<Engine>)
    requires failure != Success
    ensures awake && handle == None && held == None
  {
    var d := EnumeratedSpeaker(info, env);
    var r1 := d.WakeUp(env, Success, 7);
    var r2 := d.WakeUp(env, failure, 8);
    awake, handle, held := d.isAwake, d.internalDevice, d.engine;
  }

  /** With `wakeUp` as written, the same sequence leaves the handle of the
      first engine in place after that engine was released, on a device
      whose first wake-up negotiated rings of 8 frames. */
  method FailedRewakeDanglingAsWritten(info: DeviceInfo, env: Env, failure: MaResult)
    returns (awake: bool, handle: Option<nat>, held: Option<Engine>, ringFrames: uint32)
    requires failure != Success
    ensures awake && handle == Some(7) && held == None
    ensures ringFrames == 8
  {
    var d := EnumeratedSpeaker(info, env);
    var r1 := d.WakeUpAsWritten(env, Success, 7);
    AsWrittenRingAt48k();
    ringFrames := d.endpoint.inputRingFrames;
    var r2 := d.WakeUpAsWritten(env, failure, 8);
    awake, handle, held := d.isAwake, d.internalDevice, d.engine;
  }

  /** An enumerated device once woken and then destroyed holds nothing. */
  method WakeThenDestroy(info: DeviceInfo, env: Env, initResult: MaResult)
    returns (awake: bool, handle: Option<nat>, held: Option<Engine>)
    ensures !awake && handle == None && held == None
  {
    var d := EnumeratedSpeaker(info, env);
    var r := d.EnsureAwake(env, initResult, 3);
    d.Destroy();
    awake, handle, held := d.isAwake, d.internalDevice, d.engine;
  }
}
