/** The device registry: the map from normalised id to device, its lookups,
    the default speaker and microphone ids, and the refresh that rebuilds
    the map from one enumeration pass. The source keeps this state in
    static members; the model keeps it in one `SoundIO` object. */
module Registry {
  import opened MaTypes
  import opened AudioFormats
  import opened Endpoints
  import opened Devices
  import opened DeviceIds
  import opened DeviceLoops

  /** The id of the last delivered device that reports itself default. */
  function LastDefault(ds: seq<Delivery>): Option<string>
  {
    if ds == [] then None
    else if ds[|ds| - 1].info.isDefault != 0 then Some(ds[|ds| - 1].id)
    else LastDefault(ds[..|ds| - 1])
  }

  function DeliveredIds(ds: seq<Delivery>): set<string>
  {
    set i | 0 <= i < |ds| :: ds[i].id
  }

  lemma DeliveredIdsSnoc(ds: seq<Delivery>, i: nat)
    requires i < |ds|
    ensures DeliveredIds(ds[..i + 1]) == DeliveredIds(ds[..i]) + {ds[i].id}
    ensures LastDefault(ds[..i + 1]) == if ds[i].info.isDefault != 0 then Some(ds[i].id) else LastDefault(ds[..i])
  {
    var a, b := ds[..i + 1], ds[..i];
    assert a[..|a| - 1] == b;
    assert forall j :: 0 <= j < i ==> a[j] == b[j];
    assert a[i] == ds[i];
  }

  /** The last delivery with id `k`: the one whose values a pass leaves
      under that key. */
  ghost function LastWith(ds: seq<Delivery>, k: string): (dl: Delivery)
    requires k in DeliveredIds(ds)
    ensures dl.id == k
  {
    if ds[|ds| - 1].id == k then ds[|ds| - 1]
    else
      assert k in DeliveredIds(ds[..|ds| - 1]) by {
        var i :| 0 <= i < |ds| && ds[i].id == k;
        assert ds[..|ds| - 1][i] == ds[i];
      }
      LastWith(ds[..|ds| - 1], k)
  }

  /** The last delivery with an id is one of the deliveries. */
  lemma {:induction false} LastWithDelivered(ds: seq<Delivery>, k: string)
    requires k in DeliveredIds(ds)
    ensures LastWith(ds, k) in ds
  {
    if ds[|ds| - 1].id != k {
      var i :| 0 <= i < |ds| && ds[i].id == k;
      assert ds[..|ds| - 1][i] == ds[i];
      LastWithDelivered(ds[..|ds| - 1], k);
    }
  }

  lemma LastWithSnoc(ds: seq<Delivery>, i: nat, k: string)
    requires i < |ds| && k in DeliveredIds(ds[..i + 1])
    ensures ds[i].id == k ==> LastWith(ds[..i + 1], k) == ds[i]
    ensures ds[i].id != k ==> k in DeliveredIds(ds[..i]) && LastWith(ds[..i + 1], k) == LastWith(ds[..i], k)
  {
    var a := ds[..i + 1];
    assert a[|a| - 1] == ds[i];
    assert a[..|a| - 1] == ds[..i];
  }

  /** What a refresh sets on a device: its kind, name, info, default flag
      and format. */
  datatype DeviceView = DeviceView(kind: DeviceKind, name: string, info: DeviceInfo, isDefault: bool,
                                   format: AudioFormat)

  function ViewOf(d: AudioDevice): DeviceView
    reads d
  {
    DeviceView(d.kind, d.name, d.deviceInfo, d.isDefault, d.deviceFormat)
  }

  /** A device view that a delivery leaves under its id: of the pass's kind,
      with the delivery's name, info, default flag and format. */
  predicate ShowsDelivery(v: DeviceView, kind: DeviceKind, dl: Delivery)
  {
    && v.kind == kind && v.name == dl.info.name && v.info == dl.info
    && v.isDefault == (dl.info.isDefault != 0)
    && Equal(v.format, Make(dl.format, dl.channels, dl.sampleRate))
  }

  /** Every id delivered in `ds` shows, in `views`, a device of this kind
      reflecting the last delivery with that id. */
  ghost predicate RegistersIn(views: map<string, DeviceView>, kind: DeviceKind, ds: seq<Delivery>)
  {
    forall k :: k in DeliveredIds(ds) ==> k in views && ShowsDelivery(views[k], kind, LastWith(ds, k))
  }

  /** Registering the `i`-th delivery on top of the earlier ones, when no
      other key changes what it shows. */
  lemma RegistersAdvance(before: map<string, DeviceView>, after: map<string, DeviceView>, kind: DeviceKind,
                         ds: seq<Delivery>, i: nat)
    requires i < |ds|
    requires RegistersIn(before, kind, ds[..i])
    requires ds[i].id in after && ShowsDelivery(after[ds[i].id], kind, ds[i])
    requires forall k :: k in before && k != ds[i].id ==> k in after && after[k] == before[k]
    ensures RegistersIn(after, kind, ds[..i + 1])
  {
    DeliveredIdsSnoc(ds, i);
    forall k | k in DeliveredIds(ds[..i + 1])
      ensures k in after && ShowsDelivery(after[k], kind, LastWith(ds[..i + 1], k))
    {
      LastWithSnoc(ds, i, k);
    }
  }

  /** Every key of `start` that `ds` does not deliver still holds its start
      device, which still shows its start view. */
  ghost predicate Kept(ds: seq<Delivery>, start: map<string, AudioDevice>, views: map<string, DeviceView>,
                       devices: map<string, AudioDevice>, shown: map<string, DeviceView>)
  {
    forall k :: k in start && k !in DeliveredIds(ds) ==>
      k in devices && devices[k] == start[k] && k in views && k in shown && shown[k] == views[k]
  }

  /** A key that the `i`-th delivery leaves alone stays kept. */
  lemma KeptAdvance(ds: seq<Delivery>, i: nat, start: map<string, AudioDevice>, views: map<string, DeviceView>,
                    devicesBefore: map<string, AudioDevice>, devicesAfter: map<string, AudioDevice>,
                    shownBefore: map<string, DeviceView>, shownAfter: map<string, DeviceView>)
    requires i < |ds|
    requires Kept(ds[..i], start, views, devicesBefore, shownBefore)
    requires forall k :: k in devicesBefore && k != ds[i].id ==> k in devicesAfter && devicesAfter[k] == devicesBefore[k]
    requires forall k :: k in shownBefore && k != ds[i].id ==> k in shownAfter && shownAfter[k] == shownBefore[k]
    ensures Kept(ds[..i + 1], start, views, devicesAfter, shownAfter)
  {
    DeliveredIdsSnoc(ds, i);
  }

  /** The default ids a refresh leaves: the last default seen, else the
      previous id. */
  function NextDefaultId(ds: seq<Delivery>, previous: string): string
  {
    if LastDefault(ds).Some? then LastDefault(ds).value else previous
  }

  class SoundIO {
    var initialized: bool
    /** `context.backend`. */
    var backend: Backend
    var idToDevices: map<string, AudioDevice>
    var defaultMicrophoneId: string
    var defaultSpeakerId: string

    /** The registered devices and their endpoints (and possibly objects
        no longer registered). */
    ghost var Repr: set<object>

    /** Every device is stored under its own id and is in a valid state. */
    ghost predicate Valid()
      reads this`idToDevices, this`Repr, Repr
    {
      && this !in Repr
      && forall k :: k in idToDevices ==>
        && idToDevices[k] in Repr && idToDevices[k].endpoint in Repr
        && idToDevices[k].id == k && idToDevices[k].Valid()
    }

    constructor ()
      ensures Valid()
      ensures !initialized && idToDevices == map[] && defaultMicrophoneId == "" && defaultSpeakerId == ""
    {
      initialized := false;
      backend := NullBackend;
      idToDevices := map[];
      Repr := {};
      defaultMicrophoneId := "";
      defaultSpeakerId := "";
      Repr := {};
    }

    /** `addDevice`: stores the device under its id, replacing any entry. */
    method AddDevice(device: AudioDevice)
      requires Valid() && device.Valid()
      modifies this`idToDevices, this`Repr
      ensures Valid()
      ensures idToDevices == old(idToDevices)[device.id := device]
      ensures Repr == old(Repr) + {device, device.endpoint}
    {
      idToDevices := idToDevices[device.id := device];
      Repr := Repr + {device, device.endpoint};
    }

    /** `removeDevice`: deletes the id's entry if there is one. */
    method RemoveDevice(deviceId: string)
      requires Valid()
      modifies this`idToDevices
      ensures Valid()
      ensures idToDevices == old(idToDevices) - {deviceId}
      ensures deviceId !in old(idToDevices) ==> idToDevices == old(idToDevices)
    {
      if deviceId in idToDevices {
        idToDevices := idToDevices - {deviceId};
      }
    }

    /** `getDeviceById`: null iff the id is not a key. */
    function GetDeviceById(id: string): (r: Option<AudioDevice>)
      reads this
      ensures r.None? <==> id !in idToDevices
      ensures r.Some? ==> r.value == idToDevices[id]
    {
      if id in idToDevices then Some(idToDevices[id]) else None
    }

    /** A device found by id carries that id. */
    lemma LookupFindsOwnId(id: string)
      requires Valid()
      ensures GetDeviceById(id).Some? ==> GetDeviceById(id).value.id == id
    {
    }

    /** `getAllDevices`: one pointer per map entry, each device once. The
        order (by key) is not modelled. */
    method GetAllDevices() returns (out: seq<AudioDevice>)
      ensures |out| == |idToDevices|
      ensures forall i :: 0 <= i < |out| ==> out[i] in idToDevices.Values
      ensures forall k :: k in idToDevices ==> idToDevices[k] in out
    {
      out := [];
      var keys := idToDevices.Keys;
      ghost var done: set<string> := {};
      ghost var order: seq<string> := [];
      while keys != {}
        invariant keys + done == idToDevices.Keys && keys !! done
        invariant |order| == |out| == |done|
        invariant forall i :: 0 <= i < |out| ==> order[i] in done && out[i] == idToDevices[order[i]]
        invariant forall k :: k in done ==> idToDevices[k] in out
        decreases keys
      {
        var k :| k in keys;
        out := out + [idToDevices[k]];
        order := order + [k];
        keys := keys - {k};
        done := done + {k};
      }
      assert done == idToDevices.Keys;
    }

    /** The loop shared by `getAllMicrophones` and `getAllSpeakers`: one
        pointer per device of that kind, each once. */
    method DevicesOfKind(kind: DeviceKind) returns (out: seq<AudioDevice>)
      requires Valid()
      ensures forall i :: 0 <= i < |out| ==> out[i] in idToDevices.Values && out[i].kind == kind
      ensures forall k :: k in idToDevices && idToDevices[k].kind == kind ==> idToDevices[k] in out
      ensures forall i, j :: 0 <= i < j < |out| ==> out[i] != out[j]
    {
      out := [];
      var keys := idToDevices.Keys;
      ghost var done: set<string> := {};
      while keys != {}
        invariant keys + done == idToDevices.Keys && keys !! done
        invariant forall i :: 0 <= i < |out| ==>
          out[i].id in done && idToDevices[out[i].id] == out[i] && out[i].kind == kind
        invariant forall k :: k in done && idToDevices[k].kind == kind ==> idToDevices[k] in out
        invariant forall i, j :: 0 <= i < j < |out| ==> out[i].id != out[j].id
        decreases keys
      {
        var k :| k in keys;
        var d := idToDevices[k];
        if d.kind == kind {
          out := out + [d];
        }
        keys := keys - {k};
        done := done + {k};
      }
      forall i | 0 <= i < |out| ensures out[i] in idToDevices.Values {
        assert idToDevices[out[i].id] == out[i];
      }
    }

    method GetAllMicrophones() returns (out: seq<AudioDevice>)
      requires Valid()
      ensures forall i :: 0 <= i < |out| ==> out[i] in idToDevices.Values && out[i].kind == Microphone
      ensures forall k :: k in idToDevices && idToDevices[k].kind == Microphone ==> idToDevices[k] in out
      ensures forall i, j :: 0 <= i < j < |out| ==> out[i] != out[j]
    {
      out := DevicesOfKind(Microphone);
    }

    method GetAllSpeakers() returns (out: seq<AudioDevice>)
      requires Valid()
      ensures forall i :: 0 <= i < |out| ==> out[i] in idToDevices.Values && out[i].kind == Speaker
      ensures forall k :: k in idToDevices && idToDevices[k].kind == Speaker ==> idToDevices[k] in out
      ensures forall i, j :: 0 <= i < j < |out| ==> out[i] != out[j]
    {
      out := DevicesOfKind(Speaker);
    }

    /** The device of `kind` registered under `id`, if `id` is not empty. */
    function DefaultOfKind(id: string, kind: DeviceKind): Option<AudioDevice>
      reads this
    {
      if id == "" then None
      else match GetDeviceById(id)
        case None => None
        case Some(d) => if d.kind == kind then Some(d) else None
    }

    function GetDefaultMicrophone(): Option<AudioDevice>
      reads this
    {
      DefaultOfKind(defaultMicrophoneId, Microphone)
    }

    function GetDefaultSpeaker(): Option<AudioDevice>
      reads this
    {
      DefaultOfKind(defaultSpeakerId, Speaker)
    }

    /** The default lookups give null for an empty or unregistered id (or a
        device of the other kind), and otherwise the device of that id. */
    lemma DefaultLookups()
      requires Valid()
      ensures GetDefaultSpeaker().Some? <==>
        defaultSpeakerId != "" && defaultSpeakerId in idToDevices && idToDevices[defaultSpeakerId].kind == Speaker
      ensures GetDefaultSpeaker().Some? ==>
        GetDefaultSpeaker().value.id == defaultSpeakerId && GetDefaultSpeaker().value.kind == Speaker
      ensures GetDefaultMicrophone().Some? <==>
        defaultMicrophoneId != "" && defaultMicrophoneId in idToDevices &&
        idToDevices[defaultMicrophoneId].kind == Microphone
      ensures GetDefaultMicrophone().Some? ==>
        GetDefaultMicrophone().value.id == defaultMicrophoneId && GetDefaultMicrophone().value.kind == Microphone
    {
    }

    /** Whether the lookup plus `dynamic_cast` of `handleDeviceLoop` finds a
        device. */
    predicate Finds(id: string, kind: DeviceKind)
      reads this
    {
      id in idToDevices && idToDevices[id].kind == kind
    }

    /** What each registered device shows. */
    ghost function Views(): (v: map<string, DeviceView>)
      requires Valid()
      reads this`idToDevices, this`Repr, Repr
      ensures v.Keys == idToDevices.Keys
    {
      map k | k in idToDevices :: ViewOf(idToDevices[k])
    }

    /** The map a refresh with these speaker and microphone deliveries
        leaves: exactly the delivered ids; each microphone id holds a
        microphone from its last delivery, and each other speaker id a
        speaker from its last delivery. */
    ghost predicate Refreshed(sp: seq<Delivery>, mic: seq<Delivery>)
      reads this`idToDevices, idToDevices.Values
    {
      && idToDevices.Keys == DeliveredIds(sp) + DeliveredIds(mic)
      && (forall k :: k in DeliveredIds(mic) ==>
           k in idToDevices && ShowsDelivery(ViewOf(idToDevices[k]), Microphone, LastWith(mic, k)))
      && forall k :: k in DeliveredIds(sp) && k !in DeliveredIds(mic) ==>
           k in idToDevices && ShowsDelivery(ViewOf(idToDevices[k]), Speaker, LastWith(sp, k))
    }

    function DeviceFootprint(id: string): set<object>
      reads this
    {
      if id in idToDevices then {idToDevices[id], idToDevices[id].endpoint} else {}
    }

    /** The lookup half of `handleDeviceLoop`: the registered device of this
        kind under `id`, else a new device from the creation callback (when it
        gives one), added to the map. */
    method FindOrCreate(kind: DeviceKind, id: string, creationSucceeds: bool) returns (device: Option<AudioDevice>)
      requires Valid()
      modifies this`idToDevices, this`Repr
      ensures Valid()
      ensures Repr >= old(Repr) && fresh(Repr - old(Repr))
      ensures old(Finds(id, kind)) ==> device == Some(old(idToDevices[id])) && idToDevices == old(idToDevices)
      ensures !old(Finds(id, kind)) && !creationSucceeds ==> device.None? && idToDevices == old(idToDevices)
      ensures !old(Finds(id, kind)) && creationSucceeds ==>
        && device.Some? && fresh(device.value) && fresh(device.value.endpoint)
        && idToDevices == old(idToDevices)[id := device.value]
      ensures device.Some? ==> Finds(id, kind) && idToDevices[id] == device.value
    {
      device := GetDeviceById(id);
      if device.Some? && device.value.kind != kind {
        device := None;
      }
      if device.None? {
        if !creationSucceeds {
          return None;
        }
        var created := new AudioDevice(id, kind);
        device := Some(created);
        AddDevice(created);
      }
    }

    /** `handleDeviceLoop`: finds the device of this kind by id, or creates
        and adds one (when the creation callback gives one), updates it from
        the enumerated info and format, and returns it as the default device
        when it reports itself default. */
    method HandleDeviceLoop(kind: DeviceKind, info: DeviceInfo, normalizedId: string, format: SampleFormat,
                            sampleRate: uint32, channels: uint32, defaultDevice: Option<AudioDevice>,
                            creationSucceeds: bool, env: Env)
      returns (newDefault: Option<AudioDevice>)
      requires Valid()
      modifies this`idToDevices, this`Repr, DeviceFootprint(normalizedId)
      ensures Valid()
      ensures Repr >= old(Repr) && fresh(Repr - old(Repr))
      ensures forall k :: k in old(idToDevices) && k != normalizedId ==> k in idToDevices && idToDevices[k] == old(idToDevices[k])
      ensures idToDevices.Keys <= old(idToDevices.Keys) + {normalizedId}
      ensures old(Finds(normalizedId, kind)) ==> idToDevices == old(idToDevices)
      ensures !old(Finds(normalizedId, kind)) && !creationSucceeds ==>
        idToDevices == old(idToDevices) && newDefault == defaultDevice
      ensures !old(Finds(normalizedId, kind)) && creationSucceeds ==>
        normalizedId in idToDevices && fresh(idToDevices[normalizedId]) && fresh(idToDevices[normalizedId].endpoint)
      ensures old(Finds(normalizedId, kind)) || creationSucceeds ==>
        idToDevices.Keys == old(idToDevices.Keys) + {normalizedId}
      ensures old(Finds(normalizedId, kind)) || creationSucceeds ==>
        && (info.isDefault != 0 ==> newDefault.Some? && newDefault.value.id == normalizedId)
        && (info.isDefault == 0 ==> newDefault == defaultDevice)
      ensures old(Finds(normalizedId, kind)) || creationSucceeds ==>
        && Finds(normalizedId, kind)
        && idToDevices[normalizedId].name == info.name
        && idToDevices[normalizedId].deviceInfo == info
        && idToDevices[normalizedId].isDefault == (info.isDefault != 0)
        && Equal(idToDevices[normalizedId].deviceFormat, Make(format, channels, sampleRate))
        && newDefault == (if info.isDefault != 0 then Some(idToDevices[normalizedId]) else defaultDevice)
    {
      var device := FindOrCreate(kind, normalizedId, creationSucceeds);
      if device.None? {
        return defaultDevice;
      }
      var d := device.value;
      d.UpdateDevice(info, format, sampleRate, channels, env);
      forall k | k in idToDevices ensures idToDevices[k].id == k && idToDevices[k].Valid() {
        var e := idToDevices[k];
        if e != d {
          assert e.HandleOwned();
        }
      }
      newDefault := if d.isDefault then device else defaultDevice;
    }

    /** The callback of one `loopDevices` pass of `refreshDevices`:
        `handleDeviceLoop` with a creation callback that always gives a new
        device. */
    method HandleDelivery(kind: DeviceKind, dl: Delivery, defaultDevice: Option<AudioDevice>, env: Env)
      returns (newDefault: Option<AudioDevice>)
      requires Valid()
      modifies this`idToDevices, this`Repr, Repr
      ensures Valid()
      ensures idToDevices.Keys == old(idToDevices.Keys) + {dl.id}
      ensures Repr >= old(Repr) && fresh(Repr - old(Repr))
      ensures dl.info.isDefault != 0 ==> newDefault.Some? && newDefault.value.id == dl.id
      ensures dl.info.isDefault == 0 ==> newDefault == defaultDevice
      ensures dl.id in Views() && ShowsDelivery(Views()[dl.id], kind, dl)
      ensures forall k :: k in old(idToDevices) && k != dl.id ==>
        idToDevices[k] == old(idToDevices[k]) && unchanged(idToDevices[k])
      ensures forall k :: k in old(Views()) && k != dl.id ==> k in Views() && Views()[k] == old(Views())[k]
    {
      ghost var before, footprint := idToDevices, DeviceFootprint(dl.id);
      assert forall k :: k in before && k != dl.id ==> before[k] !in footprint;
      newDefault := HandleDeviceLoop(kind, dl.info, dl.id, dl.format, dl.sampleRate, dl.channels,
                                     defaultDevice, true, env);
      assert forall k :: k in before && k != dl.id ==> idToDevices[k] == before[k];
    }

    /** The callback on the `i`-th delivery carries a pass from `i` to
        `i + 1` deliveries, for a pass that started from the map `start`,
        whose devices then showed `views`, and from the default device
        `startDefault`: the keys are the start keys and the delivered ids,
        the current default is that of the last default delivery (else
        `startDefault`), every delivered id holds a device reflecting its
        last delivery, and every other start key keeps its device and what
        it showed. */
    method HandleNext(kind: DeviceKind, ds: seq<Delivery>, i: nat, defaultDevice: Option<AudioDevice>, env: Env,
                      ghost start: map<string, AudioDevice>, ghost views: map<string, DeviceView>,
                      ghost startDefault: Option<AudioDevice>)
      returns (newDefault: Option<AudioDevice>)
      requires Valid() && i < |ds|
      requires idToDevices.Keys == start.Keys + DeliveredIds(ds[..i])
      requires LastDefault(ds[..i]).None? ==> defaultDevice == startDefault
      requires LastDefault(ds[..i]).Some? ==> defaultDevice.Some? && defaultDevice.value.id == LastDefault(ds[..i]).value
      requires RegistersIn(Views(), kind, ds[..i])
      requires Kept(ds[..i], start, views, idToDevices, Views())
      modifies this`idToDevices, this`Repr, Repr
      ensures Valid()
      ensures Repr >= old(Repr) && fresh(Repr - old(Repr))
      ensures idToDevices.Keys == start.Keys + DeliveredIds(ds[..i + 1])
      ensures LastDefault(ds[..i + 1]).None? ==> newDefault == startDefault
      ensures LastDefault(ds[..i + 1]).Some? ==> newDefault.Some? && newDefault.value.id == LastDefault(ds[..i + 1]).value
      ensures RegistersIn(Views(), kind, ds[..i + 1])
      ensures Kept(ds[..i + 1], start, views, idToDevices, Views())
    {
      ghost var keys, devices, shown := idToDevices.Keys, idToDevices, Views();
      newDefault := HandleDelivery(kind, ds[i], defaultDevice, env);
      KeysAdvance(ds, i, start.Keys, keys, idToDevices.Keys);
      RegistersAdvance(shown, Views(), kind, ds, i);
      KeptAdvance(ds, i, start, views, devices, idToDevices, shown, Views());
    }

    /** The `i`-th delivery adds its id to the keys and, when it reports
        itself default, becomes the last default. */
    static lemma KeysAdvance(ds: seq<Delivery>, i: nat, startKeys: set<string>, before: set<string>, after: set<string>)
      requires i < |ds|
      requires before == startKeys + DeliveredIds(ds[..i])
      requires after == before + {ds[i].id}
      ensures after == startKeys + DeliveredIds(ds[..i + 1])
      ensures LastDefault(ds[..i + 1]) == if ds[i].info.isDefault != 0 then Some(ds[i].id) else LastDefault(ds[..i])
    {
      DeliveredIdsSnoc(ds, i);
    }

    /** One `loopDevices` pass of `refreshDevices`: the callback once per
        delivery, in order. */
    method HandleAll(kind: DeviceKind, ds: seq<Delivery>, defaultDevice: Option<AudioDevice>, env: Env)
      returns (newDefault: Option<AudioDevice>)
      requires Valid()
      modifies this`idToDevices, this`Repr, Repr
      ensures Valid()
      ensures idToDevices.Keys == old(idToDevices.Keys) + DeliveredIds(ds)
      ensures Repr >= old(Repr) && fresh(Repr - old(Repr))
      ensures LastDefault(ds).None? ==> newDefault == defaultDevice
      ensures LastDefault(ds).Some? ==> newDefault.Some? && newDefault.value.id == LastDefault(ds).value
      ensures RegistersIn(Views(), kind, ds)
      ensures forall k :: k in old(idToDevices) && k !in DeliveredIds(ds) ==>
        idToDevices[k] == old(idToDevices[k]) && Views()[k] == old(Views())[k]
    {
      ghost var start, views := idToDevices, Views();
      ghost var shown := views;
      newDefault := defaultDevice;
      for i := 0 to |ds|
        invariant Valid()
        invariant Repr >= old(Repr) && fresh(Repr - old(Repr))
        invariant idToDevices.Keys == start.Keys + DeliveredIds(ds[..i])
        invariant LastDefault(ds[..i]).None? ==> newDefault == defaultDevice
        invariant LastDefault(ds[..i]).Some? ==> newDefault.Some? && newDefault.value.id == LastDefault(ds[..i]).value
        invariant shown == Views()
        invariant RegistersIn(shown, kind, ds[..i])
        invariant Kept(ds[..i], start, views, idToDevices, shown)
      {
        newDefault := HandleNext(kind, ds, i, newDefault, env, start, views, defaultDevice);
        shown := Views();
      }
      assert ds[..|ds|] == ds;
    }

    /** One enumeration pass of `refreshDevices`: `loopDevices` over the
        devices of one type, with `handleDeviceLoop` as the callback and no
        default device to start from. */
    method RefreshPass(query: InfoQuery, devices: seq<DeviceInfo>, deviceType: DeviceType, kind: DeviceKind,
                       env: Env)
      returns (newDefault: Option<AudioDevice>, ghost ds: seq<Delivery>)
      requires Valid()
      modifies this`idToDevices, this`Repr, Repr
      ensures Valid()
      ensures ds == Deliveries(query, backend, deviceType, deviceType, devices)
      ensures idToDevices.Keys == old(idToDevices.Keys) + DeliveredIds(ds)
      ensures Repr >= old(Repr) && fresh(Repr - old(Repr))
      ensures LastDefault(ds).None? ==> newDefault.None?
      ensures LastDefault(ds).Some? ==> newDefault.Some? && newDefault.value.id == LastDefault(ds).value
      ensures RegistersIn(Views(), kind, ds)
      ensures forall k :: k in old(idToDevices) && k !in DeliveredIds(ds) ==>
        idToDevices[k] == old(idToDevices[k]) && Views()[k] == old(Views())[k]
    {
      var delivered := LoopDevices(query, backend, devices, deviceType);
      ds := delivered;
      newDefault := HandleAll(kind, delivered, None, env);
    }

    /** The end of `refreshDevices`: a default id is replaced only by the
        id of a default device seen during the refresh. */
    method AdoptDefaults(defaultSpeaker: Option<AudioDevice>, defaultMicrophone: Option<AudioDevice>)
      requires Valid()
      modifies this`defaultSpeakerId, this`defaultMicrophoneId
      ensures Valid()
      ensures defaultSpeakerId == if defaultSpeaker.Some? then defaultSpeaker.value.id else old(defaultSpeakerId)
      ensures defaultMicrophoneId ==
        if defaultMicrophone.Some? then defaultMicrophone.value.id else old(defaultMicrophoneId)
    {
      if defaultSpeaker.Some? {
        defaultSpeakerId := defaultSpeaker.value.id;
      }
      if defaultMicrophone.Some? {
        defaultMicrophoneId := defaultMicrophone.value.id;
      }
    }

    /** `refreshDevices`, given the enumerated speakers and microphones:
        empties the map, then handles every delivered speaker and every
        delivered microphone in turn. Its result variable is never reassigned,
        so the checks after each pass never return early and it always
        reports success; afterwards
        the keys are exactly the delivered ids, and a default id changes only
        when a default device was seen. */
    method RefreshDevices(query: InfoQuery, speakers: seq<DeviceInfo>, microphones: seq<DeviceInfo>, env: Env)
      returns (r: MaResult)
      requires Valid()
      modifies this`idToDevices, this`Repr, this`defaultSpeakerId, this`defaultMicrophoneId
      ensures Valid() && r == Success
      ensures Refreshed(Deliveries(query, backend, Playback, Playback, speakers),
                        Deliveries(query, backend, Capture, Capture, microphones))
      ensures fresh(Repr) && forall k :: k in idToDevices ==> fresh(idToDevices[k])
      ensures defaultSpeakerId ==
        NextDefaultId(Deliveries(query, backend, Playback, Playback, speakers), old(defaultSpeakerId))
      ensures defaultMicrophoneId ==
        NextDefaultId(Deliveries(query, backend, Capture, Capture, microphones), old(defaultMicrophoneId))
    {
      var defaultSpeaker, defaultMicrophone, sp, mic := RebuildMap(query, speakers, microphones, env);
      AdoptDefaults(defaultSpeaker, defaultMicrophone);
      return Success;
    }

    /** The passes of `refreshDevices`: the map emptied, then the speaker
        pass and the microphone pass, each starting without a default
        device. */
    method RebuildMap(query: InfoQuery, speakers: seq<DeviceInfo>, microphones: seq<DeviceInfo>, env: Env)
      returns (defaultSpeaker: Option<AudioDevice>, defaultMicrophone: Option<AudioDevice>,
               ghost sp: seq<Delivery>, ghost mic: seq<Delivery>)
      requires Valid()
      modifies this`idToDevices, this`Repr
      ensures Valid()
      ensures sp == Deliveries(query, backend, Playback, Playback, speakers)
      ensures mic == Deliveries(query, backend, Capture, Capture, microphones)
      ensures Refreshed(sp, mic)
      ensures fresh(Repr) && forall k :: k in idToDevices ==> fresh(idToDevices[k])
      ensures LastDefault(sp).None? ==> defaultSpeaker.None?
      ensures LastDefault(sp).Some? ==> defaultSpeaker.Some? && defaultSpeaker.value.id == LastDefault(sp).value
      ensures LastDefault(mic).None? ==> defaultMicrophone.None?
      ensures LastDefault(mic).Some? ==> defaultMicrophone.Some? && defaultMicrophone.value.id == LastDefault(mic).value
    {
      idToDevices := map[];
      Repr := {};
      defaultSpeaker, sp := RefreshPass(query, speakers, Playback, Speaker, env);
      ghost var afterSpeakers, speakerKeys := Repr, idToDevices.Keys;
      ghost var speakerViews := Views();
      assert speakerKeys == DeliveredIds(sp);
      defaultMicrophone, mic := RefreshPass(query, microphones, Capture, Microphone, env);
      assert fresh(Repr - afterSpeakers) && afterSpeakers <= Repr;
      assert idToDevices.Keys == DeliveredIds(sp) + DeliveredIds(mic);
      forall k | k in DeliveredIds(sp) && k !in DeliveredIds(mic)
        ensures k in idToDevices && ShowsDelivery(ViewOf(idToDevices[k]), Speaker, LastWith(sp, k))
      {
        assert Views()[k] == speakerViews[k];
      }
      forall k | k in DeliveredIds(mic)
        ensures k in idToDevices && ShowsDelivery(ViewOf(idToDevices[k]), Microphone, LastWith(mic, k))
      {
        assert k in Views();
      }
    }

    /** `initialize`, with the outcome of `ma_context_init` and the backend
        it picks as inputs: nothing happens when already initialised; a
        failed context or the null backend is reported; otherwise the devices
        are refreshed and the registry is initialised. */
    method Initialize(contextInit: MaResult, contextBackend: Backend, query: InfoQuery,
                      speakers: seq<DeviceInfo>, microphones: seq<DeviceInfo>, env: Env)
      returns (r: MaResult)
      requires Valid()
      modifies this`initialized, this`backend, this`idToDevices, this`Repr, this`defaultSpeakerId, this`defaultMicrophoneId
      ensures Valid()
      ensures old(initialized) ==> r == NoMessage && unchanged(this)
      ensures !old(initialized) && contextInit != Success ==> r == contextInit && unchanged(this)
      ensures !old(initialized) && contextInit == Success && contextBackend == NullBackend ==>
        && r == BackendNotEnabled && backend == NullBackend
        && unchanged(this`initialized, this`idToDevices, this`Repr, this`defaultSpeakerId, this`defaultMicrophoneId)
      ensures !old(initialized) && contextInit == Success && contextBackend != NullBackend ==>
        && r == Success && initialized && backend == contextBackend
        && Refreshed(Deliveries(query, backend, Playback, Playback, speakers),
                     Deliveries(query, backend, Capture, Capture, microphones))
    {
      if initialized {
        return NoMessage;
      }
      var result := contextInit;
      if result != Success {
        return result;
      }
      backend := contextBackend;
      if backend == NullBackend {
        return BackendNotEnabled;
      }
      var ignored := RefreshDevices(query, speakers, microphones, env);
      initialized := true;
      return result;
    }

    /** `shutdown`: reports success in every state and changes nothing. */
    method Shutdown() returns (r: MaResult)
      ensures r == Success
    {
      if !initialized {
        return Success;
      }
      return Success;
    }

    /** `onDeviceInit` and `onDeviceUninit` (the same body): invalid
        arguments for a null device, otherwise a refresh. */
    method OnDeviceChange(deviceIsNull: bool, query: InfoQuery, speakers: seq<DeviceInfo>,
                          microphones: seq<DeviceInfo>, env: Env) returns (r: MaResult)
      requires Valid()
      modifies this`idToDevices, this`Repr, this`defaultSpeakerId, this`defaultMicrophoneId
      ensures Valid()
      ensures deviceIsNull ==> r == InvalidArgs && unchanged(this)
      ensures !deviceIsNull ==>
        && r == Success
        && Refreshed(Deliveries(query, backend, Playback, Playback, speakers),
                     Deliveries(query, backend, Capture, Capture, microphones))
    {
      if deviceIsNull {
        return InvalidArgs;
      }
      r := RefreshDevices(query, speakers, microphones, env);
    }
  }
}
