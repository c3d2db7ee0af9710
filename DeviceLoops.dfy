/** `loopDevices`: for every enumerated device, query its detailed info,
    pick its best native data format and normalise its id, then hand the
    result to the caller's callback. The callback is modelled by returning
    the sequence of deliveries it would receive, in order. */
module DeviceLoops {
  import opened MaTypes
  import opened DeviceIds

  /** The accumulators `bestFormat`, `bestSampleRate`, `bestChannels` and
      `bestIsExclusive`. */
  datatype Best = Best(format: SampleFormat, sampleRate: uint32, channels: uint32, exclusive: bool)

  function InitialBest(): Best
  {
    Best(FormatUnknown, 44100, 2, false)
  }

  predicate IsExclusive(c: NativeDataFormat)
  {
    c.flags & DATA_FORMAT_FLAG_EXCLUSIVE_MODE != 0
  }

  /** Candidates with an unknown format or a zero rate are skipped. */
  predicate Usable(c: NativeDataFormat)
  {
    c.format != FormatUnknown && c.sampleRate != 0
  }

  /** The preference test of the selection loop, branch by branch. */
  predicate IsBetter(c: NativeDataFormat, best: Best)
  {
    || best.format == FormatUnknown
    || (c.format == F32 && best.format != F32)
    || (c.format == best.format && c.sampleRate > best.sampleRate)
    || (c.format == best.format && c.sampleRate == best.sampleRate && c.channels > best.channels)
    || (c.format == best.format && c.sampleRate == best.sampleRate && c.channels == best.channels &&
        IsExclusive(c) && !best.exclusive)
  }

  function BestOf(c: NativeDataFormat): Best
  {
    Best(c.format, c.sampleRate, c.channels, IsExclusive(c))
  }

  /** One iteration of the selection loop. */
  function Step(best: Best, c: NativeDataFormat): Best
  {
    if !Usable(c) || !IsBetter(c, best) then best else BestOf(c)
  }

  /** The accumulators after the loop has seen `cs`. */
  function SelectFrom(cs: seq<NativeDataFormat>): Best
  {
    if cs == [] then InitialBest() else Step(SelectFrom(cs[..|cs| - 1]), cs[|cs| - 1])
  }

  /** The inner loop of `loopDevices`. */
  method SelectBestFormat(formats: seq<NativeDataFormat>) returns (best: Best)
    ensures best == SelectFrom(formats)
  {
    best := InitialBest();
    for j := 0 to |formats|
      invariant best == SelectFrom(formats[..j])
    {
      assert formats[..j + 1][..j] == formats[..j];
      var c := formats[j];
      var isExclusive := c.flags & DATA_FORMAT_FLAG_EXCLUSIVE_MODE != 0;
      if c.format == FormatUnknown || c.sampleRate == 0 {
        continue;
      }
      var isBetter := false;
      if best.format == FormatUnknown {
        isBetter := true;
      } else if c.format == F32 && best.format != F32 {
        isBetter := true;
      } else if c.format == best.format && c.sampleRate > best.sampleRate {
        isBetter := true;
      } else if c.format == best.format && c.sampleRate == best.sampleRate && c.channels > best.channels {
        isBetter := true;
      } else if c.format == best.format && c.sampleRate == best.sampleRate && c.channels == best.channels &&
                isExclusive && !best.exclusive {
        isBetter := true;
      }
      if !isBetter {
        continue;
      }
      best := Best(c.format, c.sampleRate, c.channels, isExclusive);
    }
    assert formats[..|formats|] == formats;
  }

  // ---------------------------------------------------------------------
  // What the selection means

  ghost predicate AnyUsable(cs: seq<NativeDataFormat>)
  {
    exists i :: 0 <= i < |cs| && Usable(cs[i])
  }

  ghost predicate AnyUsableF32(cs: seq<NativeDataFormat>)
  {
    exists i :: 0 <= i < |cs| && Usable(cs[i]) && cs[i].format == F32
  }

  /** The index of the first usable candidate (|cs| when there is none). */
  function FirstUsable(cs: seq<NativeDataFormat>): (k: nat)
    ensures k <= |cs|
    ensures forall j :: 0 <= j < k ==> !Usable(cs[j])
    ensures k < |cs| ==> Usable(cs[k])
  {
    if cs == [] || Usable(cs[0]) then 0 else 1 + FirstUsable(cs[1..])
  }

  /** The format the rule settles on: f32 if any usable candidate has it,
      otherwise the format of the first usable candidate. */
  ghost function ChosenFormat(cs: seq<NativeDataFormat>): SampleFormat
  {
    if AnyUsableF32(cs) then F32
    else if FirstUsable(cs) < |cs| then cs[FirstUsable(cs)].format
    else FormatUnknown
  }

  /** Strict lexicographic order on (sampleRate, channels, exclusive). */
  predicate Greater(a: NativeDataFormat, b: NativeDataFormat)
  {
    || a.sampleRate > b.sampleRate
    || (a.sampleRate == b.sampleRate && a.channels > b.channels)
    || (a.sampleRate == b.sampleRate && a.channels == b.channels && IsExclusive(a) && !IsExclusive(b))
  }

  /** Candidate `i` is the earliest lexicographic maximum among the usable
      candidates of the chosen format. */
  ghost predicate IsChoice(cs: seq<NativeDataFormat>, i: int)
  {
    && 0 <= i < |cs| && Usable(cs[i]) && cs[i].format == ChosenFormat(cs)
    && (forall j :: 0 <= j < |cs| && Usable(cs[j]) && cs[j].format == cs[i].format ==> !Greater(cs[j], cs[i]))
    && (forall j :: 0 <= j < i && Usable(cs[j]) && cs[j].format == cs[i].format ==> Greater(cs[i], cs[j]))
  }

  lemma FirstUsableOfExtension(cs: seq<NativeDataFormat>, c: NativeDataFormat)
    ensures FirstUsable(cs) < |cs| ==> FirstUsable(cs + [c]) == FirstUsable(cs)
    ensures FirstUsable(cs) == |cs| ==> FirstUsable(cs + [c]) == (if Usable(c) then |cs| else |cs| + 1)
  {
    var e := cs + [c];
    assert forall j :: 0 <= j < |cs| ==> e[j] == cs[j];
    assert e[|cs|] == c;
  }

  /** The selection is the unknown format exactly when no candidate is usable. */
  lemma {:induction false} SelectUnknownIffNoneUsable(cs: seq<NativeDataFormat>)
    ensures SelectFrom(cs).format == FormatUnknown <==> !AnyUsable(cs)
  {
    if cs != [] {
      var p := cs[..|cs| - 1];
      var c := cs[|cs| - 1];
      SelectUnknownIffNoneUsable(p);
      assert cs == p + [c];
      assert forall j :: 0 <= j < |p| ==> cs[j] == p[j];
    }
  }

  /** The chosen format of `p + [c]`: f32 if `c` is a usable f32 candidate,
      otherwise that of `p`. */
  lemma ChosenFormatExtends(p: seq<NativeDataFormat>, c: NativeDataFormat)
    requires FirstUsable(p) < |p|
    ensures ChosenFormat(p + [c]) == if Usable(c) && c.format == F32 then F32 else ChosenFormat(p)
  {
    var cs := p + [c];
    assert forall j :: 0 <= j < |p| ==> cs[j] == p[j];
    assert cs[|p|] == c;
    FirstUsableOfExtension(p, c);
    assert AnyUsableF32(cs) <==> AnyUsableF32(p) || (Usable(c) && c.format == F32);
  }

  /** A better usable candidate becomes the choice. */
  lemma ChoiceTaken(p: seq<NativeDataFormat>, c: NativeDataFormat, i: nat)
    requires IsChoice(p, i) && SelectFrom(p) == BestOf(p[i])
    requires Usable(c) && IsBetter(c, BestOf(p[i]))
    ensures IsChoice(p + [c], |p|) && SelectFrom(p + [c]) == BestOf(c)
  {
    var cs := p + [c];
    assert cs[..|cs| - 1] == p;
    assert cs[|p|] == c;
    assert forall j :: 0 <= j < |p| ==> cs[j] == p[j];
    ChosenFormatExtends(p, c);
    if !(c.format == F32 && p[i].format != F32) {
      assert c.format == p[i].format;
      assert Greater(c, p[i]);
    } else {
      assert !AnyUsableF32(p);
    }
  }

  /** Any other candidate leaves the choice where it was. */
  lemma ChoiceKept(p: seq<NativeDataFormat>, c: NativeDataFormat, i: nat)
    requires IsChoice(p, i) && SelectFrom(p) == BestOf(p[i])
    requires !(Usable(c) && IsBetter(c, BestOf(p[i])))
    ensures IsChoice(p + [c], i) && SelectFrom(p + [c]) == BestOf(p[i])
  {
    var cs := p + [c];
    assert cs[..|cs| - 1] == p;
    assert cs[|p|] == c;
    assert forall j :: 0 <= j < |p| ==> cs[j] == p[j];
    ChosenFormatExtends(p, c);
    if Usable(c) && c.format == p[i].format {
      assert !Greater(c, p[i]);
    }
  }

  /** How the choice moves when one more candidate `c` is seen. */
  lemma ChoiceStep(p: seq<NativeDataFormat>, c: NativeDataFormat, i: nat)
    requires IsChoice(p, i) && SelectFrom(p) == BestOf(p[i])
    ensures var cs := p + [c];
      if Usable(c) && IsBetter(c, BestOf(p[i]))
      then IsChoice(cs, |p|) && SelectFrom(cs) == BestOf(c)
      else IsChoice(cs, i) && SelectFrom(cs) == BestOf(p[i])
  {
    if Usable(c) && IsBetter(c, BestOf(p[i])) {
      ChoiceTaken(p, c, i);
    } else {
      ChoiceKept(p, c, i);
    }
  }

  /** When some candidate is usable, the selection is the earliest
      lexicographic maximum among the usable candidates of the chosen format
      (so the 44100 Hz / 2 channel start values never survive). */
  lemma {:induction false} SelectionIsChoice(cs: seq<NativeDataFormat>)
    requires AnyUsable(cs)
    ensures exists i :: IsChoice(cs, i) && SelectFrom(cs) == BestOf(cs[i])
  {
    var p := cs[..|cs| - 1];
    var c := cs[|cs| - 1];
    assert cs == p + [c];
    if AnyUsable(p) {
      SelectionIsChoice(p);
      var i :| IsChoice(p, i) && SelectFrom(p) == BestOf(p[i]);
      ChoiceStep(p, c, i);
    } else {
      SelectUnknownIffNoneUsable(p);
      assert forall j :: 0 <= j < |p| ==> cs[j] == p[j] && !Usable(p[j]);
      assert Usable(c);
      FirstUsableOfExtension(p, c);
      assert FirstUsable(p) == |p|;
      assert AnyUsableF32(cs) <==> c.format == F32;
      assert IsChoice(cs, |p|);
    }
  }

  /** The chosen format is f32 iff some usable candidate is f32, and
      otherwise that of the first usable candidate. */
  lemma ChosenFormatRule(cs: seq<NativeDataFormat>)
    requires AnyUsable(cs)
    ensures SelectFrom(cs).format == F32 <==> AnyUsableF32(cs)
    ensures !AnyUsableF32(cs) ==> FirstUsable(cs) < |cs| && SelectFrom(cs).format == cs[FirstUsable(cs)].format
  {
    SelectionIsChoice(cs);
    var i :| IsChoice(cs, i) && SelectFrom(cs) == BestOf(cs[i]);
  }

  // ---------------------------------------------------------------------
  // The device loop

  /** `ma_context_get_device_info`: the detailed info of a device id when
      queried as the given device type, or `None` when the query fails. */
  type InfoQuery = (DeviceType, DeviceIdUnion) -> Option<DeviceInfo>

  /** The arguments of one callback invocation. */
  datatype Delivery = Delivery(info: DeviceInfo, id: string, format: SampleFormat, sampleRate: uint32, channels: uint32)

  /** What one iteration of the outer loop delivers for `device`, querying
      its info as `queryType`. */
  function DeliveryFor(query: InfoQuery, backend: Backend, queryType: DeviceType, deviceType: DeviceType,
                       device: DeviceInfo): Option<Delivery>
  {
    match query(queryType, device.id)
    case None => None
    case Some(detailed) =>
      if |detailed.nativeDataFormats| == 0 then None
      else
        var best := SelectFrom(detailed.nativeDataFormats);
        if best.format == FormatUnknown then None
        else
          match NormalizeDeviceId(backend, detailed.id, deviceType, true)
          case None => None
          case Some(key) => Some(Delivery(detailed, key, best.format, best.sampleRate, best.channels))
  }

  function AsSeq<T>(o: Option<T>): seq<T>
  {
    if o.Some? then [o.value] else []
  }

  /** Everything the callback receives for `devices`, in order. */
  function Deliveries(query: InfoQuery, backend: Backend, queryType: DeviceType, deviceType: DeviceType,
                      devices: seq<DeviceInfo>): seq<Delivery>
  {
    if devices == [] then []
    else Deliveries(query, backend, queryType, deviceType, devices[..|devices| - 1]) +
         AsSeq(DeliveryFor(query, backend, queryType, deviceType, devices[|devices| - 1]))
  }

  /** One iteration of the outer loop, with its `continue` skips. */
  method DeliverOne(query: InfoQuery, backend: Backend, queryType: DeviceType, device: DeviceInfo,
                    deviceType: DeviceType) returns (next: Option<Delivery>)
    ensures next == DeliveryFor(query, backend, queryType, deviceType, device)
  {
    var detailedInfo := query(queryType, device.id);
    if detailedInfo.None? {
      return None;
    }
    var formatCount := |detailedInfo.value.nativeDataFormats|;
    if formatCount == 0 {
      return None;
    }
    var best := SelectBestFormat(detailedInfo.value.nativeDataFormats);
    if best.format == FormatUnknown {
      return None;
    }
    var id := NormalizeDeviceId(backend, detailedInfo.value.id, deviceType, true);
    if id.None? {
      return None;
    }
    return Some(Delivery(detailedInfo.value, id.value, best.format, best.sampleRate, best.channels));
  }

  /** Appending the delivery for `devices[i]` to those of the devices
      before it gives those of the devices up to and including it. */
  lemma DeliveriesStep(query: InfoQuery, backend: Backend, queryType: DeviceType, deviceType: DeviceType,
                       devices: seq<DeviceInfo>, i: nat, delivered: seq<Delivery>, next: Option<Delivery>)
    requires i < |devices|
    requires delivered == Deliveries(query, backend, queryType, deviceType, devices[..i])
    requires next == DeliveryFor(query, backend, queryType, deviceType, devices[i])
    ensures delivered + AsSeq(next) == Deliveries(query, backend, queryType, deviceType, devices[..i + 1])
  {
    assert devices[..i + 1][..i] == devices[..i];
  }

  /** The outer loop, querying detailed info as `queryType`. */
  method LoopDevicesQuerying(query: InfoQuery, backend: Backend, queryType: DeviceType, devices: seq<DeviceInfo>,
                             deviceType: DeviceType) returns (delivered: seq<Delivery>)
    ensures delivered == Deliveries(query, backend, queryType, deviceType, devices)
  {
    delivered := [];
    for i := 0 to |devices|
      invariant delivered == Deliveries(query, backend, queryType, deviceType, devices[..i])
    {
      var next := DeliverOne(query, backend, queryType, devices[i], deviceType);
      DeliveriesStep(query, backend, queryType, deviceType, devices, i, delivered, next);
      delivered := delivered + AsSeq(next);
    }
    assert devices[..|devices|] == devices;
  }

  /** `loopDevices` with the query made for the device type being
      enumerated, as evidently intended. */
  method LoopDevices(query: InfoQuery, backend: Backend, devices: seq<DeviceInfo>, deviceType: DeviceType)
    returns (delivered: seq<Delivery>)
    ensures delivered == Deliveries(query, backend, deviceType, deviceType, devices)
  {
    delivered := LoopDevicesQuerying(query, backend, deviceType, devices, deviceType);
  }

  /** `loopDevices` as written: the detailed info is always queried as a
      playback device, whatever type is being enumerated. */
  method LoopDevicesAsWritten(query: InfoQuery, backend: Backend, devices: seq<DeviceInfo>, deviceType: DeviceType)
    returns (delivered: seq<Delivery>)
    ensures delivered == Deliveries(query, backend, Playback, deviceType, devices)
  {
    delivered := LoopDevicesQuerying(query, backend, Playback, devices, deviceType);
  }

  /** One delivery at most per device, in enumeration order: the
      deliveries of a concatenation are those of the parts, concatenated. */
  lemma {:induction false} DeliveriesAppend(query: InfoQuery, backend: Backend, queryType: DeviceType,
                                            deviceType: DeviceType, a: seq<DeviceInfo>, b: seq<DeviceInfo>)
    ensures Deliveries(query, backend, queryType, deviceType, a + b) ==
            Deliveries(query, backend, queryType, deviceType, a) + Deliveries(query, backend, queryType, deviceType, b)
    decreases |b|
  {
    if b == [] {
      assert a + b == a;
    } else {
      var b' := b[..|b| - 1];
      assert (a + b)[..|a + b| - 1] == a + b';
      assert (a + b)[|a + b| - 1] == b[|b| - 1];
      DeliveriesAppend(query, backend, queryType, deviceType, a, b');
    }
  }

  lemma {:induction false} DeliveriesBound(query: InfoQuery, backend: Backend, queryType: DeviceType,
                                           deviceType: DeviceType, devices: seq<DeviceInfo>)
    ensures |Deliveries(query, backend, queryType, deviceType, devices)| <= |devices|
  {
    if devices != [] {
      DeliveriesBound(query, backend, queryType, deviceType, devices[..|devices| - 1]);
    }
  }

  /** The skip rules: a device reaches the callback exactly when its query
      succeeds, it reports some native format, some candidate is usable and
      its id normalises; the delivered format, rate and channel count are
      then those of a usable candidate, the earliest maximum of the chosen
      format, and the id is the normalised one. */
  lemma DeliveryRules(query: InfoQuery, backend: Backend, queryType: DeviceType, deviceType: DeviceType,
                      device: DeviceInfo)
    ensures DeliveryFor(query, backend, queryType, deviceType, device).Some? <==>
      && query(queryType, device.id).Some?
      && |query(queryType, device.id).value.nativeDataFormats| > 0
      && AnyUsable(query(queryType, device.id).value.nativeDataFormats)
      && NormalizeDeviceId(backend, query(queryType, device.id).value.id, deviceType, true).Some?
    ensures DeliveryFor(query, backend, queryType, deviceType, device).Some? ==>
      var d := DeliveryFor(query, backend, queryType, deviceType, device).value;
      var cs := query(queryType, device.id).value.nativeDataFormats;
      && d.info == query(queryType, device.id).value
      && d.id == NormalizeDeviceId(backend, d.info.id, deviceType, true).value
      && exists i :: IsChoice(cs, i) && d.format == cs[i].format && d.sampleRate == cs[i].sampleRate &&
                     d.channels == cs[i].channels
  {
    match query(queryType, device.id)
    case None =>
    case Some(detailed) =>
      var cs := detailed.nativeDataFormats;
      SelectUnknownIffNoneUsable(cs);
      if AnyUsable(cs) {
        SelectionIsChoice(cs);
      }
  }

  /** The delivered id always ends in the enumerated device type's code. */
  lemma DeliveredIdsCarryType(query: InfoQuery, backend: Backend, queryType: DeviceType, deviceType: DeviceType,
                              devices: seq<DeviceInfo>, k: nat)
    requires k < |Deliveries(query, backend, queryType, deviceType, devices)|
    ensures var key := Deliveries(query, backend, queryType, deviceType, devices)[k].id;
      |key| > 0 && key[|key| - 1] == DigitChar(deviceType.Code())
  {
    DeliveredIdsAre(query, backend, queryType, deviceType, devices, k);
  }

  lemma {:induction false} DeliveredIdsAre(query: InfoQuery, backend: Backend, queryType: DeviceType,
                                           deviceType: DeviceType, devices: seq<DeviceInfo>, k: nat)
    requires k < |Deliveries(query, backend, queryType, deviceType, devices)|
    ensures var d := Deliveries(query, backend, queryType, deviceType, devices)[k];
      NormalizeDeviceId(backend, d.info.id, deviceType, true) == Some(d.id)
  {
    var p := devices[..|devices| - 1];
    var dp := Deliveries(query, backend, queryType, deviceType, p);
    if k < |dp| {
      DeliveredIdsAre(query, backend, queryType, deviceType, p, k);
    } else {
      var last := devices[|devices| - 1];
      DeliveryRules(query, backend, queryType, deviceType, last);
      NormalizeKeyShape(backend, query(queryType, last.id).value.id, deviceType, true);
    }
    var d := Deliveries(query, backend, queryType, deviceType, devices)[k];
    NormalizeKeyShape(backend, d.info.id, deviceType, true);
    KeyShape(BackendTag(backend), Sanitize(RawIdText(backend, d.info.id).value), deviceType);
  }

  /** A backend that reports a capture device's info only when it is asked
      for a capture device. */
  function CaptureOnlyQuery(info: DeviceInfo): InfoQuery
  {
    (t: DeviceType, id: DeviceIdUnion) => if t == Capture && id == info.id then Some(info) else None
  }

  function SampleMicrophone(): DeviceInfo
  {
    DeviceInfo(DeviceIdUnion("", [], 0, "hw:1,0", "", "", "", "", "", "", 0, 0, 0, 0, 0, "", None), "USB Mic", 1, [NativeDataFormat(S16, 1, 48000, 0)])
  }

  /** Querying as playback loses a microphone that querying as capture
      delivers. */
  lemma PlaybackQueryLosesCaptureDevice()
    ensures Deliveries(CaptureOnlyQuery(SampleMicrophone()), Alsa, Playback, Capture, [SampleMicrophone()]) == []
    ensures |Deliveries(CaptureOnlyQuery(SampleMicrophone()), Alsa, Capture, Capture, [SampleMicrophone()])| == 1
  {
    var mic := SampleMicrophone();
    var q := CaptureOnlyQuery(mic);
    assert [mic][..0] == [];
    assert q(Playback, mic.id) == None;
    assert q(Capture, mic.id) == Some(mic);
    assert Usable(mic.nativeDataFormats[0]);
    DeliveryRules(q, Alsa, Capture, Capture, mic);
  }
}
